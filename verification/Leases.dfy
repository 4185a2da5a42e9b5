/** Leases on task rows: who may be working on what, and when. */
module Leases {
  import opened StateMachine
  import opened Domain
  import opened Rows
  import opened Definitions
  import opened History
  import opened Instances
  import opened Invariants
  import opened Preservation
  import opened RollbackPreservation
  import opened Runs
  import opened RowFates
  import opened Starting
  import opened Lifecycle

  /** A row whose lease has not run out. */
  predicate Leased(r: Row, now: int) {
    r.state == Running && r.lockedUntil.Some? && r.lockedUntil.value >= now
  }

  lemma ActiveRowsAreInOneTable(i: Instance, a: int, b: int)
    requires Inv(i) && a in i.tasks && b in i.comps
    ensures !(Active(i.tasks[a]) && Active(i.comps[b]))
  {
    hide Outputs, Undone, Endings, RolledBack, Ordered;
    TerminalByName(i.exec.state);
  }

  /** In every run of a CHAIN or SAGA, while one row of either table is leased, no other row is
      active and no poll of either table grants anything: at most one worker at a time holds an
      unexpired lease on the execution's work. */
  lemma OneLeaseAtATime(r: Request, acts: seq<Action>, other: int)
    requires WellFormed(r.steps) && r.kind != Independent
    ensures var i := Run(Begin(r), acts);
            && (forall id :: id in i.tasks && Leased(i.tasks[id], i.now) ==>
                  && PollTask(i, other) == i && PollCompensationTask(i, other) == i
                  && (other != id && other in i.tasks ==> !Active(i.tasks[other]))
                  && (other in i.comps ==> !Active(i.comps[other])))
            && (forall id :: id in i.comps && Leased(i.comps[id], i.now) ==>
                  && PollTask(i, other) == i && PollCompensationTask(i, other) == i
                  && (other != id && other in i.comps ==> !Active(i.comps[other]))
                  && (other in i.tasks ==> !Active(i.tasks[other])))
  {
    hide Begin, Run, Inv;
    var i := Run(Begin(r), acts);
    AfterAnyRun(r, acts);
    forall id | id in i.tasks && Leased(i.tasks[id], i.now)
      ensures other in i.tasks ==> other == id
      ensures other in i.comps ==> !Active(i.comps[other])
    {
      OneTask(i, id);
      if other in i.comps { ActiveRowsAreInOneTable(i, id, other); }
    }
    forall id | id in i.comps && Leased(i.comps[id], i.now)
      ensures other in i.comps ==> other == id
      ensures other in i.tasks ==> !Active(i.tasks[other])
    {
      OneCompensation(i, id);
      if other in i.tasks { ActiveRowsAreInOneTable(i, other, id); }
    }
  }

  // ---------------------------------------------------------------- what a step does to a row

  /** A step leaves a surviving row as it was, leases it, renews it, or makes it inactive. */
  predicate RowMoves(r: Row, n: Row, now: int) {
    || n == r
    || (Eligible(r, now) && n == LockRow(r, now, r.timeoutSeconds))
    || (r.state == Running && n == RenewRow(r, now, r.timeoutSeconds))
    || !Active(n)
  }

  /** A new row is not leased. */
  ghost predicate RowStep(i: Instance, n: Instance, id: int) {
    id in n.tasks ==> if id in i.tasks then RowMoves(i.tasks[id], n.tasks[id], i.now) else n.tasks[id].state == Created
  }

  /** The timeout of a task row is that of its step, hence positive. */
  lemma TaskTimeout(i: Instance, id: int)
    requires Inv(i) && id in i.tasks
    ensures i.tasks[id].timeoutSeconds > 0
    ensures i.tasks[id].state == Running ==> i.tasks[id].lockedUntil.Some?
  {
    hide Outputs, Undone;
    assert TaskOk(PlanOf(i), Outputs(i.history), i.tasks[id]);
  }

  lemma TaskRowStep(i: Instance, a: Action, id: int)
    requires Inv(i)
    ensures RowStep(i, Next(i, a), id)
  {
    Fates(i, a, id);
    hide Inv, Next, CompensationFate;
  }

  // ---------------------------------------------------------------- a lease is kept until it runs out

  /** No lease reaches further than a full timeout from now. */
  predicate LeaseBounded(r: Row, now: int) {
    r.state == Running ==> r.lockedUntil.Some? && r.lockedUntil.value <= now + r.timeoutSeconds
  }

  ghost predicate LeasesBounded(i: Instance) {
    forall id :: id in i.tasks ==> LeaseBounded(i.tasks[id], i.now)
  }

  /** The row is gone, inactive, or leased at least until the given time. */
  ghost predicate KeptUntil(i: Instance, id: int, until: int) {
    && id < i.nextId
    && (id in i.tasks && Active(i.tasks[id]) ==>
          i.tasks[id].state == Running && i.tasks[id].lockedUntil.Some? && i.tasks[id].lockedUntil.value >= until)
  }

  lemma RowMovesKeepLease(r: Row, n: Row, now: int, until: int)
    requires RowMoves(r, n, now) && LeaseBounded(r, now) && r.timeoutSeconds > 0
    ensures LeaseBounded(n, now)
    ensures Active(n) ==> Active(r)
    ensures Active(n) && r.state == Running && r.lockedUntil.value >= until ==>
              n.state == Running && n.lockedUntil.value >= until
  {
  }

  lemma LeasesStayBounded(i: Instance, a: Action)
    requires Inv(i) && LeasesBounded(i)
    ensures LeasesBounded(Next(i, a)) && i.now <= Next(i, a).now
  {
    hide Inv, Next;
    var n := Next(i, a);
    NextKeeps(i, a);
    forall id | id in n.tasks ensures LeaseBounded(n.tasks[id], n.now) {
      TaskRowStep(i, a, id);
      if id in i.tasks {
        TaskTimeout(i, id);
        RowMovesKeepLease(i.tasks[id], n.tasks[id], i.now, 0);
      }
    }
  }

  lemma LeaseIsKept(i: Instance, a: Action, id: int, until: int)
    requires Inv(i) && LeasesBounded(i) && KeptUntil(i, id, until)
    ensures KeptUntil(Next(i, a), id, until)
  {
    hide Inv, Next;
    NextKeeps(i, a);
    TaskRowStep(i, a, id);
    if id in i.tasks && id in Next(i, a).tasks {
      TaskTimeout(i, id);
      RowMovesKeepLease(i.tasks[id], Next(i, a).tasks[id], i.now, until);
    }
  }

  lemma {:induction false} LeaseIsKeptInRuns(i: Instance, acts: seq<Action>, id: int, until: int)
    requires Inv(i) && LeasesBounded(i)
    ensures LeasesBounded(Run(i, acts)) && (KeptUntil(i, id, until) ==> KeptUntil(Run(i, acts), id, until))
  {
    hide Inv, Next, LeasesBounded, KeptUntil;
    if acts != [] {
      var front := acts[..|acts| - 1];
      LeaseIsKeptInRuns(i, front, id, until);
      RunKeeps(i, front);
      LeasesStayBounded(Run(i, front), acts[|acts| - 1]);
      if KeptUntil(i, id, until) {
        LeaseIsKept(Run(i, front), acts[|acts| - 1], id, until);
      }
    }
  }

  /** A task that is leased until a certain time in one state of a run is not granted again in any
      later state up to that time, whatever polls, heartbeats, reports, cancels and expiries lie in
      between. */
  lemma LeaseIsExclusive(r: Request, acts: seq<Action>, id: int, later: seq<Action>)
    requires WellFormed(r.steps)
    requires var i := Run(Begin(r), acts); id in i.tasks && i.tasks[id].state == Running
    ensures var i := Run(Begin(r), acts);
            var j := Run(i, later);
            i.tasks[id].lockedUntil.Some? && (j.now <= i.tasks[id].lockedUntil.value ==> PollTask(j, id) == j)
  {
    hide Inv, Run, LeasesBounded;
    var i := Run(Begin(r), acts);
    BeginKeeps(r);
    AfterAnyRun(r, acts);
    TaskTimeout(i, id);
    assert LeasesBounded(Begin(r)) by { FirstRowsAreNotLeased(r); }
    LeaseIsKeptInRuns(Begin(r), acts, id, 0);
    var until := i.tasks[id].lockedUntil.value;
    assert KeptUntil(i, id, until) by { RowsAreDistinct(i); }
    LeaseIsKeptInRuns(i, later, id, until);
  }

  lemma FirstRowsAreCreated(r: Request)
    ensures forall id :: id in FirstRows(r, |r.steps|) ==> FirstRows(r, |r.steps|)[id].state == Created
  {
    FirstRowsHold(r, |r.steps|);
    hide FirstRows;
  }

  lemma FirstRowsAreNotLeased(r: Request)
    requires WellFormed(r.steps)
    ensures LeasesBounded(Begin(r))
  {
    hide Begin, Inv, FirstRows, WellFormed;
    BeginKeeps(r);
    FirstRowsAreCreated(r);
    forall id | id in Begin(r).tasks ensures LeaseBounded(Begin(r).tasks[id], Begin(r).now) {
      assert Begin(r).tasks[id].state == Created;
    }
  }

  // ---------------------------------------------------------------- rows that are never granted again

  /** An id that was issued and names no active row: settled, cancelled or removed. */
  predicate Dormant(i: Instance, id: int) {
    id < i.nextId && (id in i.tasks ==> !Active(i.tasks[id]))
  }

  lemma DormantStays(i: Instance, a: Action, id: int)
    requires Inv(i) && Dormant(i, id)
    ensures Dormant(Next(i, a), id)
  {
    hide Inv, Next;
    NextKeeps(i, a);
    TaskRowStep(i, a, id);
  }

  lemma {:induction false} NeverGrantedAgain(i: Instance, acts: seq<Action>, id: int)
    requires Inv(i) && Dormant(i, id)
    ensures Dormant(Run(i, acts), id) && PollTask(Run(i, acts), id) == Run(i, acts)
  {
    hide Inv, Next;
    if acts != [] {
      NeverGrantedAgain(i, acts[..|acts| - 1], id);
      RunKeeps(i, acts[..|acts| - 1]);
      DormantStays(Run(i, acts[..|acts| - 1]), acts[|acts| - 1], id);
    }
  }

  lemma ReportedIsGone(i: Instance, id: int, result: Bytes, err: string)
    requires Inv(i) && id in i.tasks && !IsTerminal(i.exec.state)
    ensures id !in Next(i, Report(id, result, err)).tasks
  {
    hide Inv, Next, CompensationFate, First;
    Fates(i, Report(id, result, err), id);
  }

  lemma LateReportSettles(i: Instance, id: int, result: Bytes, err: string)
    requires id in i.tasks && IsTerminal(i.exec.state)
    ensures var n := Next(i, Report(id, result, err)); id in n.tasks && !Active(n.tasks[id])
  {
  }

  lemma SettledIsDormant(i: Instance, id: int, result: Bytes, err: string)
    requires Inv(i) && id in i.tasks
    ensures Dormant(Next(i, Report(id, result, err)), id) && Inv(Next(i, Report(id, result, err)))
    ensures Closed(i) ==> Dormant(i, id)
  {
    hide Inv, Next;
    RowsAreDistinct(i);
    NextKeeps(i, Report(id, result, err));
    if Closed(i) { ClosedHasNoActive(i); }
    if IsTerminal(i.exec.state) {
      LateReportSettles(i, id, result, err);
    } else {
      ReportedIsGone(i, id, result, err);
    }
  }

  /** Settled and cancelled tasks are never granted again: neither the reported one after any report,
      nor any task of an execution that was cancelled, failed or completed. */
  lemma SettledIsNeverGranted(i: Instance, id: int, result: Bytes, err: string, acts: seq<Action>)
    requires Inv(i) && id in i.tasks
    ensures var j := Run(Next(i, Report(id, result, err)), acts); PollTask(j, id) == j
    ensures Closed(i) ==> PollTask(Run(i, acts), id) == Run(i, acts)
  {
    SettledIsDormant(i, id, result, err);
    hide Inv, Next;
    NeverGrantedAgain(Next(i, Report(id, result, err)), acts, id);
    if Closed(i) {
      NeverGrantedAgain(i, acts, id);
    }
  }

  // ---------------------------------------------------------------- when a task is granted

  /** No step of these polls the task or sends a heartbeat for it. */
  predicate NobodyTouches(later: seq<Action>, id: int) {
    Poll(id) !in later && Heartbeat(id) !in later
  }

  lemma {:induction false} UntouchedRow(i: Instance, later: seq<Action>, id: int)
    requires Inv(i) && id < i.nextId && NobodyTouches(later, id)
    ensures var m := Run(i, later);
            id in m.tasks && Active(m.tasks[id]) ==> id in i.tasks && m.tasks[id] == i.tasks[id]
  {
    hide Inv, Next, CompensationFate;
    if later != [] {
      var front, a := later[..|later| - 1], later[|later| - 1];
      assert a in later && forall b :: b in front ==> b in later;
      UntouchedRow(i, front, id);
      RunKeeps(i, front);
      IdsGrow(i, front);
      Fates(Run(i, front), a, id);
      NextKeeps(Run(i, front), a);
    }
  }

  /** As long as nobody touches it, an active task is granted exactly from its scheduled time on if it
      is waiting, and exactly after its lease has run out if it is leased: no task is lost with its
      worker. */
  lemma GrantedExactlyWhen(i: Instance, later: seq<Action>, id: int)
    requires Inv(i) && id in i.tasks && NobodyTouches(later, id)
    ensures var m := Run(i, later);
            id in m.tasks && Active(m.tasks[id]) ==>
              (Next(m, Poll(id)) != m
               <==> if i.tasks[id].state == Created then m.now >= i.tasks[id].scheduledAt
                    else i.tasks[id].lockedUntil.Some? && m.now > i.tasks[id].lockedUntil.value)
  {
    RowsAreDistinct(i);
    hide Inv, Run;
    UntouchedRow(i, later, id);
  }

  lemma TimeoutOfItsStep(i: Instance, id: int)
    requires Inv(i) && id in i.tasks
    ensures 1 <= i.tasks[id].stepIndex <= |i.steps|
    ensures i.tasks[id].timeoutSeconds == i.steps[i.tasks[id].stepIndex - 1].timeoutSeconds > 0
    ensures i.tasks[id].state == Running ==> i.tasks[id].lockedUntil.Some?
  {
    hide Outputs, Undone;
    assert TaskOk(PlanOf(i), Outputs(i.history), i.tasks[id]);
  }

  /** What a poll and a heartbeat write into a row, by the clock and the timeout. */
  lemma Leasing(i: Instance, a: Action, id: int)
    requires id in i.tasks
    requires (a == Poll(id) && Next(i, a) != i) || (a == Heartbeat(id) && i.tasks[id].state == Running)
    ensures var n := Next(i, a);
            && n.now == i.now && id in n.tasks
            && n.tasks[id] == i.tasks[id].(state := Running, lockedUntil := Some(i.now + i.tasks[id].timeoutSeconds),
                                           attempt := i.tasks[id].attempt + if a.Poll? then 1 else 0)
  {
  }

  /** In every run, a poll that grants a task and a heartbeat on a leased one both lease it until the
      timeout of its step has passed from now. No continuation grants it up to that time; and if its
      worker is not heard of again, it is granted to another exactly from then on. */
  lemma LeaseRunsForTheTimeout(r: Request, acts: seq<Action>, a: Action, id: int, later: seq<Action>)
    requires WellFormed(r.steps)
    requires var i := Run(Begin(r), acts);
             id in i.tasks
             && ((a == Poll(id) && Next(i, a) != i) || (a == Heartbeat(id) && i.tasks[id].state == Running))
    ensures var i := Run(Begin(r), acts);
            var k, g := i.tasks[id].stepIndex, Next(i, a);
            && 1 <= k <= |r.steps|
            && var until := i.now + r.steps[k - 1].timeoutSeconds;
            && id in g.tasks && g.tasks[id].state == Running && g.tasks[id].lockedUntil == Some(until)
            && var m := Run(g, later);
            && (m.now <= until ==> Next(m, Poll(id)) == m)
            && (NobodyTouches(later, id) && id in m.tasks && Active(m.tasks[id]) ==>
                  (Next(m, Poll(id)) != m <==> m.now > until))
  {
    hide Inv, Run, Begin, Next, WellFormed, Active;
    var i := Run(Begin(r), acts);
    var g := Next(i, a);
    AfterAnyRun(r, acts);
    Leasing(i, a, id);
    TimeoutOfItsStep(i, id);
    NextKeeps(i, a);
    OneMore(Begin(r), acts, a);
    GrantsAreExclusive(r, acts + [a], id, later);
    if NobodyTouches(later, id) { GrantedExactlyWhen(g, later, id); }
  }

  lemma GrantsAreExclusive(r: Request, acts: seq<Action>, id: int, later: seq<Action>)
    requires WellFormed(r.steps)
    requires var i := Run(Begin(r), acts); id in i.tasks && i.tasks[id].state == Running
    ensures var i := Run(Begin(r), acts);
            var m := Run(i, later);
            i.tasks[id].lockedUntil.Some? && (m.now <= i.tasks[id].lockedUntil.value ==> Next(m, Poll(id)) == m)
  {
    hide Run, Begin, PollTask;
    LeaseIsExclusive(r, acts, id, later);
  }
}
