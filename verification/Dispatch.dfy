/** One execution and the task streams together: from a report's commit over the call of Notify to the
    poll of a stream (usecase/task.go, usecase/broker.go, interface/grpc/task_handler.go). */
module Dispatch {
  import opened StateMachine
  import opened Domain
  import opened Rows
  import opened Definitions
  import opened History
  import opened Instances
  import opened Invariants
  import opened Starting
  import opened RowFates
  import opened Notifications
  import R = Runs
  import B = Broker

  /** The desk is the broker with its streams; owed are the calls of Notify that follow commits already
      made; followUps are the compensation tasks scheduled by compensation reports. The notification
      that startCompensation gives before its commit is a step of its own, like anybody else's. */
  datatype Office = Office(engine: Instance, desk: B.System, owed: seq<string>, followUps: set<int>)

  datatype Step =
    | Engine(a: R.Action)
    | Tell(k: nat)
    | Desk(step: B.Step)
    | Poll(stream: nat, found: Option<int>)

  function RowsOf(o: Office, c: nat): map<int, Row>
    requires c < |o.desk.streams|
  {
    if o.desk.streams[c].compensation then o.engine.comps else o.engine.tasks
  }

  /** The row that the poll of stream c may lease. */
  predicate MayGet(o: Office, c: nat, id: int)
    requires c < |o.desk.streams|
  {
    id in RowsOf(o, c) && RowsOf(o, c)[id].taskQueue == o.desk.streams[c].queue
    && Eligible(RowsOf(o, c)[id], o.engine.now)
  }

  ghost predicate Enabled(o: Office, step: Step) {
    match step
    case Engine(_) => true
    case Tell(k) => k < |o.owed|
    case Desk(d) =>
      && B.Indexed(o.desk.board) && B.Enabled(o.desk, d)
      && (d.Wake? || d.Timer? || d.Leave? || d.EarlyNotify? || (d.Open? && d.queue != ""))
    case Poll(c, Some(id)) => c < |o.desk.streams| && o.desk.streams[c].phase == B.Polling && MayGet(o, c, id)
    case Poll(c, None) =>
      c < |o.desk.streams| && o.desk.streams[c].phase == B.Polling && forall id :: !MayGet(o, c, id)
  }

  function TxOf(i: Instance, a: R.Action): Option<Tx> {
    match a
    case Report(id, result, err) => Some(CompleteTaskTx(i, id, result, err))
    case ReportCompensation(id, result, err) => Some(CompleteCompensationTx(i, id, result, err))
    case _ => None
  }

  /** The call of Notify that a report makes after its commit. */
  function Owed(i: Instance, a: R.Action): seq<string> {
    match TxOf(i, a)
    case Some(Commit(_, notify, _, _)) => if notify == "" then [] else [notify]
    case _ => []
  }

  function PollOf(o: Office, c: nat, id: int): R.Action
    requires c < |o.desk.streams|
  {
    if o.desk.streams[c].compensation then R.PollCompensation(id) else R.Poll(id)
  }

  function Act(o: Office, a: R.Action): Office {
    var n := R.Next(o.engine, a);
    o.(engine := n,
       owed := o.owed + Owed(o.engine, a),
       followUps := o.followUps + if a.ReportCompensation? then n.comps.Keys - o.engine.comps.Keys else {})
  }

  ghost function Next(o: Office, step: Step): Office
    requires Enabled(o, step)
  {
    match step
    case Engine(a) => Act(o, a)
    case Tell(k) => o.(desk := o.desk.(board := B.Notified(o.desk.board, o.owed[k])),
                       owed := o.owed[..k] + o.owed[k + 1..])
    case Desk(d) => o.(desk := B.Next(o.desk, d))
    case Poll(c, Some(id)) => Act(o, PollOf(o, c, id))
    case Poll(c, None) => o.(desk := B.SetPhase(o.desk, c, B.Waiting))
  }

  // ---------------------------------------------------------------- the invariant

  /** A row as its creator made it, for whose queue Notify is called after the commit. */
  predicate Announced(o: Office, compensation: bool, id: int) {
    if compensation then id in o.engine.comps && Untried(o.engine.comps[id]) && id in o.followUps
    else id in o.engine.tasks && Untried(o.engine.tasks[id])
  }

  predicate Untried(r: Row) {
    r.state == Created && r.attempt == 0
  }

  ghost predicate Due(i: Instance) {
    && (forall id :: id in i.tasks && Untried(i.tasks[id]) ==> i.tasks[id].scheduledAt <= i.now)
    && (forall id :: id in i.comps && Untried(i.comps[id]) ==> i.comps[id].scheduledAt <= i.now)
  }

  /** A stream that waits although an announced row of its queue is there has a token in its channel,
      or the call of Notify is still to come. */
  ghost predicate Awake(o: Office) {
    forall c: nat, id: int ::
      B.Waits(o.desk, c) && Announced(o, o.desk.streams[c].compensation, id)
      && RowsOf(o, c)[id].taskQueue == o.desk.streams[c].queue ==>
        (c < |o.desk.board.channels| && o.desk.board.channels[c].token) || o.desk.streams[c].queue in o.owed
  }

  ghost predicate Named(o: Office) {
    forall c :: 0 <= c < |o.desk.streams| ==> o.desk.streams[c].queue != ""
  }

  ghost predicate OfficeOk(o: Office) {
    && Inv(o.engine) && Due(o.engine) && B.Listed(o.desk) && Named(o) && Awake(o)
    && forall id :: id in o.followUps ==> id < o.engine.nextId
  }

  // ---------------------------------------------------------------- engine steps

  lemma AttemptsAreCounted(i: Instance)
    requires Inv(i)
    ensures forall id :: (id in i.tasks ==> i.tasks[id].attempt >= 0) && (id in i.comps ==> i.comps[id].attempt >= 0)
  {
    hide Outputs, Undone, PhaseOk, RecordOk;
  }

  lemma UntriedTaskBefore(i: Instance, a: R.Action, n: Instance, id: int)
    requires TaskFate(i, a, n, id) && (forall q :: q in i.tasks ==> i.tasks[q].attempt >= 0)
    ensures id in n.tasks && Untried(n.tasks[id]) ==>
              if id in i.tasks then n.tasks[id] == i.tasks[id] else a.Report? && n.tasks[id].scheduledAt == i.now
  {
    hide Backoff, IsTerminal;
  }

  lemma UntriedCompensationBefore(i: Instance, a: R.Action, n: Instance, id: int)
    requires CompensationFate(i, a, n, id) && (forall q :: q in i.comps ==> i.comps[q].attempt >= 0)
    ensures id in n.comps && Untried(n.comps[id]) ==>
              if id in i.comps then n.comps[id] == i.comps[id]
              else (a.Report? || a.ReportCompensation?) && n.comps[id].scheduledAt == i.now
  {
    hide Backoff, IsTerminal;
  }

  /** An untried row was there before, or a report of this step has scheduled it. */
  lemma UntriedBefore(i: Instance, a: R.Action, id: int)
    requires Inv(i)
    ensures var n := R.Next(i, a);
            id in n.tasks && Untried(n.tasks[id]) ==>
              if id in i.tasks then n.tasks[id] == i.tasks[id] else a.Report? && n.tasks[id].scheduledAt == i.now
    ensures var n := R.Next(i, a);
            id in n.comps && Untried(n.comps[id]) ==>
              if id in i.comps then n.comps[id] == i.comps[id]
              else (a.Report? || a.ReportCompensation?) && n.comps[id].scheduledAt == i.now
  {
    Fates(i, a, id);
    AttemptsAreCounted(i);
    hide Inv, R.Next, TaskFate, CompensationFate, Untried;
    UntriedTaskBefore(i, a, R.Next(i, a), id);
    UntriedCompensationBefore(i, a, R.Next(i, a), id);
  }

  lemma DueKeeps(i: Instance, a: R.Action)
    requires Inv(i) && Due(i)
    ensures Due(R.Next(i, a))
  {
    hide Inv, R.Next;
    R.NextKeeps(i, a);
    var n := R.Next(i, a);
    forall id | id in n.tasks && Untried(n.tasks[id]) ensures n.tasks[id].scheduledAt <= n.now {
      UntriedBefore(i, a, id);
    }
    forall id | id in n.comps && Untried(n.comps[id]) ensures n.comps[id].scheduledAt <= n.now {
      UntriedBefore(i, a, id);
    }
  }

  /** What a report schedules, except the first task of a rollback, it notifies after the commit. */
  lemma NewRowsAreOwed(i: Instance, a: R.Action, id: int)
    requires Inv(i)
    ensures var n := R.Next(i, a);
            a.Report? && id in n.tasks && id !in i.tasks && n.tasks[id].taskQueue != "" ==>
            n.tasks[id].taskQueue in Owed(i, a)
    ensures var n := R.Next(i, a);
            a.ReportCompensation? && id in n.comps && id !in i.comps && n.comps[id].taskQueue != "" ==>
              n.comps[id].taskQueue in Owed(i, a)
  {
    hide Inv, CompleteTaskTx, CompleteCompensationTx;
    if a.Report? {
      ReportTells(i, a.id, a.result, a.err);
    }
    if a.ReportCompensation? {
      ReportCompensationTells(i, a.id, a.result, a.err);
    }
  }

  lemma IssuedIds(i: Instance, a: R.Action)
    requires Inv(i)
    ensures i.nextId <= R.Next(i, a).nextId
    ensures forall id :: id in R.Next(i, a).comps ==> id < R.Next(i, a).nextId && (id in i.comps || i.nextId <= id)
  {
    R.NextKeeps(i, a);
    hide R.Next, Outputs, Undone, PhaseOk, RecordOk, CompensationOk;
  }

  lemma ActKeepsAwake(o: Office, a: R.Action, c: nat, id: int)
    requires OfficeOk(o)
    requires var p := Act(o, a);
             B.Waits(p.desk, c) && Announced(p, p.desk.streams[c].compensation, id)
             && RowsOf(p, c)[id].taskQueue == p.desk.streams[c].queue
    ensures var p := Act(o, a);
            (c < |p.desk.board.channels| && p.desk.board.channels[c].token) || p.desk.streams[c].queue in p.owed
  {
    UntriedBefore(o.engine, a, id);
    NewRowsAreOwed(o.engine, a, id);
    IssuedIds(o.engine, a);
    hide Inv, Due, R.Next, Owed, B.Listed;
    assert B.Waits(o.desk, c) && o.desk.streams[c].queue != "";
    var before := Announced(o, o.desk.streams[c].compensation, id);
  }

  lemma ActKeeps(o: Office, a: R.Action)
    requires OfficeOk(o)
    ensures OfficeOk(Act(o, a))
  {
    R.NextKeeps(o.engine, a);
    DueKeeps(o.engine, a);
    IssuedIds(o.engine, a);
    var p := Act(o, a);
    forall c: nat, id: int |
      B.Waits(p.desk, c) && Announced(p, p.desk.streams[c].compensation, id)
      && RowsOf(p, c)[id].taskQueue == p.desk.streams[c].queue
      ensures (c < |p.desk.board.channels| && p.desk.board.channels[c].token) || p.desk.streams[c].queue in p.owed
    {
      ActKeepsAwake(o, a, c, id);
    }
    hide Inv, Due, R.Next, Owed, Announced;
  }

  // ---------------------------------------------------------------- steps of the streams

  lemma OwedStays(o: Office, k: nat, queue: string)
    requires k < |o.owed| && queue in o.owed && queue != o.owed[k]
    ensures queue in Next(o, Tell(k)).owed
  {
    var left := Next(o, Tell(k)).owed;
    var j :| 0 <= j < |o.owed| && o.owed[j] == queue;
    assert left[if j < k then j else j - 1] == queue;
  }

  lemma Told(s: B.System, queue: string, c: nat)
    requires B.Listed(s) && B.Waits(s, c) && (s.streams[c].queue == queue || s.board.channels[c].token)
    ensures c < |B.Notified(s.board, queue).channels| && B.Notified(s.board, queue).channels[c].token
  {
    assert B.ListOk(s, s.streams[c].queue);
  }

  lemma TellKeeps(o: Office, k: nat)
    requires OfficeOk(o) && k < |o.owed|
    ensures OfficeOk(Next(o, Tell(k)))
  {
    var p := Next(o, Tell(k));
    assert B.Listed(p.desk) by { NotifiedIsListed(o.desk, o.owed[k]); }
    hide Inv, Due, B.Notified;
    forall c: nat, id: int |
      B.Waits(p.desk, c) && Announced(p, p.desk.streams[c].compensation, id)
      && RowsOf(p, c)[id].taskQueue == p.desk.streams[c].queue
      ensures (c < |p.desk.board.channels| && p.desk.board.channels[c].token) || p.desk.streams[c].queue in p.owed
    {
      var queue := o.desk.streams[c].queue;
      assert B.Waits(o.desk, c) && Announced(o, o.desk.streams[c].compensation, id);
      hide B.Listed;
      if queue == o.owed[k] || o.desk.board.channels[c].token {
        Told(o.desk, o.owed[k], c);
      } else {
        OwedStays(o, k, queue);
      }
    }
  }

  lemma NotifiedIsListed(s: B.System, queue: string)
    requires B.Listed(s)
    ensures B.Listed(s.(board := B.Notified(s.board, queue)))
  {
    assert B.Indexed(s.board) by { forall q ensures B.ListOk(s, q) {} }
    B.ListedKeeps(s, B.EarlyNotify(queue));
  }

  lemma DeskKeepsAwake(o: Office, d: B.Step)
    requires B.Listed(o.desk) && Awake(o) && Enabled(o, Desk(d))
    ensures Awake(Next(o, Desk(d)))
  {
    B.ListedKeeps(o.desk, d);
    var p := Next(o, Desk(d));
    forall c: nat, id: int |
      B.Waits(p.desk, c) && Announced(p, p.desk.streams[c].compensation, id)
      && RowsOf(p, c)[id].taskQueue == p.desk.streams[c].queue
      ensures (c < |p.desk.board.channels| && p.desk.board.channels[c].token) || p.desk.streams[c].queue in p.owed
    {
      assert c < |o.desk.streams| && B.Waits(o.desk, c) && Announced(o, o.desk.streams[c].compensation, id);
    }
  }

  lemma DeskKeeps(o: Office, d: B.Step)
    requires OfficeOk(o) && Enabled(o, Desk(d))
    ensures OfficeOk(Next(o, Desk(d)))
  {
    hide Inv, Due, Awake;
    B.ListedKeeps(o.desk, d);
    DeskKeepsAwake(o, d);
  }

  lemma AnnouncedMayBeGot(o: Office, c: nat, id: int)
    requires c < |o.desk.streams| && Due(o.engine) && Announced(o, o.desk.streams[c].compensation, id)
    requires RowsOf(o, c)[id].taskQueue == o.desk.streams[c].queue
    ensures MayGet(o, c, id)
  {
  }

  lemma EmptyPollKeeps(o: Office, c: nat)
    requires OfficeOk(o) && Enabled(o, Poll(c, None))
    ensures OfficeOk(Next(o, Poll(c, None)))
  {
    var p := Next(o, Poll(c, None));
    PhaseKeepsListed(o.desk, c);
    hide Inv;
    forall d: nat, id: int |
      B.Waits(p.desk, d) && Announced(p, p.desk.streams[d].compensation, id)
      && RowsOf(p, d)[id].taskQueue == p.desk.streams[d].queue
      ensures (d < |p.desk.board.channels| && p.desk.board.channels[d].token) || p.desk.streams[d].queue in p.owed
    {
      if d == c {
        AnnouncedMayBeGot(o, c, id);
      } else {
        assert B.Waits(o.desk, d) && Announced(o, o.desk.streams[d].compensation, id);
      }
    }
  }

  lemma PhaseKeepsListed(s: B.System, c: nat)
    requires B.Listed(s) && c < |s.streams| && s.streams[c].phase == B.Polling
    ensures B.Listed(B.SetPhase(s, c, B.Waiting))
  {
    var n := B.SetPhase(s, c, B.Waiting);
    forall q ensures B.ListOk(n, q) {
      assert B.ListOk(s, q);
    }
  }

  lemma StepKeeps(o: Office, step: Step)
    requires OfficeOk(o) && Enabled(o, step)
    ensures OfficeOk(Next(o, step))
  {
    hide OfficeOk, Act;
    match step
    case Engine(a) => ActKeeps(o, a);
    case Tell(k) => TellKeeps(o, k);
    case Desk(d) => DeskKeeps(o, d);
    case Poll(c, Some(id)) => ActKeeps(o, PollOf(o, c, id));
    case Poll(c, None) => EmptyPollKeeps(o, c);
  }

  // ---------------------------------------------------------------- runs

  ghost function After(o: Office, steps: seq<Step>): Option<Office> {
    if steps == [] then Some(o)
    else match After(o, steps[..|steps| - 1])
      case None => None
      case Some(p) => if Enabled(p, steps[|steps| - 1]) then Some(Next(p, steps[|steps| - 1])) else None
  }

  lemma {:induction false} OfficeStaysOk(o: Office, steps: seq<Step>)
    requires OfficeOk(o) && After(o, steps).Some?
    ensures OfficeOk(After(o, steps).value)
  {
    hide OfficeOk, Enabled, Next;
    if steps != [] {
      OfficeStaysOk(o, steps[..|steps| - 1]);
      StepKeeps(After(o, steps[..|steps| - 1]).value, steps[|steps| - 1]);
    }
  }

  /** StartWorkflow has committed, and its call of Notify is still to come. */
  function Opening(r: Request, desk: B.System): Office {
    Office(Begin(r), desk, [r.queue], {})
  }

  lemma OpeningIsAwake(r: Request, desk: B.System)
    requires forall t :: t in Begin(r).tasks ==> Begin(r).tasks[t].taskQueue == r.queue
    requires Begin(r).comps == map[]
    ensures Awake(Opening(r, desk))
  {
    hide Begin;
    assert r.queue in Opening(r, desk).owed;
  }

  lemma OpeningIsOk(r: Request, desk: B.System)
    requires WellFormed(r.steps) && OneQueue(r)
    requires B.Listed(desk) && (forall c :: 0 <= c < |desk.streams| ==> desk.streams[c].queue != "")
    ensures OfficeOk(Opening(r, desk))
  {
    hide Inv, Begin, StartTxOf, FirstRows, WellFormed, B.Listed, Due, Awake, OneQueue;
    BeginKeeps(r);
    StartTells(r);
    DueAtFirst(r);
    OpeningIsAwake(r, desk);
  }

  lemma FirstRowsAreDue(r: Request, rows: map<int, Row>)
    requires forall id :: id in rows ==>
               1 <= id - r.nextId + 1 <= |r.steps| && rows[id] == FirstRow(r, id - r.nextId + 1)
    ensures forall id :: id in rows ==> rows[id].scheduledAt == r.now
  {
  }

  lemma DueAtFirst(r: Request)
    requires WellFormed(r.steps)
    ensures Due(Begin(r)) && Begin(r).comps == map[]
  {
    hide Begin, WellFormed, FirstRow;
    TasksAtFirst(r);
    BeginsNow(r);
    FirstRowsAreDue(r, Begin(r).tasks);
  }

  /** No lost wake-up, from the report to the stream. In every run of an execution with a broker and
      its streams, whoever else polls, reports, subscribes, leaves or notifies: a stream that waits for
      its queue while a task of the queue is there as it was scheduled has a token to wake it, as soon
      as the call of Notify that follows the commit has been made. The same holds of compensation
      tasks, but for the first of a rollback, which is announced before the commit. */
  lemma NoTaskIsSleptOver(r: Request, desk: B.System, steps: seq<Step>, c: nat, id: int)
    requires WellFormed(r.steps) && OneQueue(r)
    requires B.Listed(desk) && (forall c :: 0 <= c < |desk.streams| ==> desk.streams[c].queue != "")
    requires After(Opening(r, desk), steps).Some?
    requires var o := After(Opening(r, desk), steps).value;
             B.Waits(o.desk, c) && Announced(o, o.desk.streams[c].compensation, id)
             && RowsOf(o, c)[id].taskQueue == o.desk.streams[c].queue
    ensures var o := After(Opening(r, desk), steps).value;
            o.desk.streams[c].queue !in o.owed ==>
              c < |o.desk.board.channels| && o.desk.board.channels[c].token && B.Enabled(o.desk, B.Wake(c))
  {
    OpeningIsOk(r, desk);
    OfficeStaysOk(Opening(r, desk), steps);
    hide After, Opening, WellFormed, B.Listed, Inv, Due;
  }
}
