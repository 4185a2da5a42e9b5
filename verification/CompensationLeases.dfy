/** Leases on compensation rows. They differ from those on task rows in one point: a heartbeat grants
    300 seconds whatever the timeout of the step. */
module CompensationLeases {
  import opened StateMachine
  import opened Domain
  import opened Rows
  import opened Definitions
  import opened History
  import opened Instances
  import opened Invariants
  import opened Preservation
  import opened RollbackPreservation
  import opened Runs
  import opened RowFates
  import opened Starting
  import opened Lifecycle

  /** A step leaves a surviving row as it was, leases it, renews it, or makes it inactive. */
  predicate RowMoves(r: Row, n: Row, now: int) {
    || n == r
    || (Eligible(r, now) && n == LockRow(r, now, CompensationLease(r)))
    || (r.state == Running && n == RenewRow(r, now, 300))
    || !Active(n)
  }

  /** A new row is not leased. */
  ghost predicate RowStep(i: Instance, n: Instance, id: int) {
    id in n.comps ==> if id in i.comps then RowMoves(i.comps[id], n.comps[id], i.now) else n.comps[id].state == Created
  }

  lemma CompensationRowStep(i: Instance, a: Action, id: int)
    requires Inv(i)
    ensures RowStep(i, Next(i, a), id)
  {
    Fates(i, a, id);
    hide Inv, Next, TaskFate;
  }

  // ---------------------------------------------------------------- leases of at most five minutes

  /** A lease on a row of at most 300 seconds never reaches further than 300 seconds from now. */
  predicate Bounded(r: Row, now: int) {
    r.state == Running && r.timeoutSeconds <= 300 ==> r.lockedUntil.Some? && r.lockedUntil.value <= now + 300
  }

  ghost predicate AllBounded(i: Instance) {
    forall id :: id in i.comps ==> Bounded(i.comps[id], i.now)
  }

  /** The row is gone, inactive, or leased at least until the given time. */
  ghost predicate KeptUntil(i: Instance, id: int, until: int) {
    && id < i.nextId
    && (id in i.comps && Active(i.comps[id]) ==>
          && i.comps[id].timeoutSeconds <= 300
          && i.comps[id].state == Running && i.comps[id].lockedUntil.Some? && i.comps[id].lockedUntil.value >= until)
  }

  lemma RowMovesKeepLease(r: Row, n: Row, now: int, until: int)
    requires RowMoves(r, n, now) && Bounded(r, now)
    ensures Bounded(n, now)
    ensures Active(n) ==> Active(r) && n.timeoutSeconds == r.timeoutSeconds
    ensures Active(n) && r.state == Running && r.timeoutSeconds <= 300 && r.lockedUntil.value >= until ==>
              n.state == Running && n.lockedUntil.value >= until
  {
  }

  lemma StayBounded(i: Instance, a: Action)
    requires Inv(i) && AllBounded(i)
    ensures AllBounded(Next(i, a))
  {
    hide Inv, Next;
    var n := Next(i, a);
    NextKeeps(i, a);
    forall id | id in n.comps ensures Bounded(n.comps[id], n.now) {
      CompensationRowStep(i, a, id);
      if id in i.comps {
        RowMovesKeepLease(i.comps[id], n.comps[id], i.now, 0);
      }
    }
  }

  lemma LeaseIsKept(i: Instance, a: Action, id: int, until: int)
    requires Inv(i) && AllBounded(i) && KeptUntil(i, id, until)
    ensures KeptUntil(Next(i, a), id, until)
  {
    hide Inv, Next;
    NextKeeps(i, a);
    CompensationRowStep(i, a, id);
    if id in i.comps && id in Next(i, a).comps {
      RowMovesKeepLease(i.comps[id], Next(i, a).comps[id], i.now, until);
    }
  }

  lemma {:induction false} LeaseIsKeptInRuns(i: Instance, acts: seq<Action>, id: int, until: int)
    requires Inv(i) && AllBounded(i)
    ensures AllBounded(Run(i, acts)) && (KeptUntil(i, id, until) ==> KeptUntil(Run(i, acts), id, until))
  {
    hide Inv, Next, AllBounded, KeptUntil;
    if acts != [] {
      var front := acts[..|acts| - 1];
      LeaseIsKeptInRuns(i, front, id, until);
      RunKeeps(i, front);
      StayBounded(Run(i, front), acts[|acts| - 1]);
      if KeptUntil(i, id, until) {
        LeaseIsKept(Run(i, front), acts[|acts| - 1], id, until);
      }
    }
  }

  lemma NothingLeasedAtFirst(r: Request)
    requires WellFormed(r.steps)
    ensures AllBounded(Begin(r))
  {
    BeginKeeps(r);
    hide Begin, FirstRows, Inv;
    RowsWhileLive(Begin(r));
  }

  lemma RunningIsLocked(i: Instance, id: int)
    requires Inv(i) && id in i.comps
    ensures id < i.nextId && i.comps[id].timeoutSeconds > 0
    ensures i.comps[id].state == Running ==> i.comps[id].lockedUntil.Some?
    ensures i.comps[id].state == Created ==> i.comps[id].lockedUntil == None
  {
    OneCompensation(i, id);
    hide Outputs, Undone, CompensationSteps;
    CompensationStepsSelect(i.steps, |Outputs(i.history)|);
  }

  /** A compensation task whose step allows at most 300 seconds, and which is leased until a certain
      time in one state of a run, is not granted again in any later state up to that time. */
  lemma CompensationLeaseIsExclusive(r: Request, acts: seq<Action>, id: int, later: seq<Action>)
    requires WellFormed(r.steps)
    requires var i := Run(Begin(r), acts);
             id in i.comps && i.comps[id].state == Running && i.comps[id].timeoutSeconds <= 300
    ensures var i := Run(Begin(r), acts);
            var j := Run(i, later);
            i.comps[id].lockedUntil.Some?
            && (j.now <= i.comps[id].lockedUntil.value ==> PollCompensationTask(j, id) == j)
  {
    hide Inv, Run, AllBounded;
    var i := Run(Begin(r), acts);
    BeginKeeps(r);
    AfterAnyRun(r, acts);
    NothingLeasedAtFirst(r);
    LeaseIsKeptInRuns(Begin(r), acts, id, 0);
    RunningIsLocked(i, id);
    var until := i.comps[id].lockedUntil.value;
    assert KeptUntil(i, id, until);
    LeaseIsKeptInRuns(i, later, id, until);
  }

  /** The run in which a heartbeat breaks the promise. */
  lemma GrantedTwice(i: Instance, id: int)
    requires id in i.comps && Eligible(i.comps[id], i.now) && i.comps[id].timeoutSeconds > 300
    ensures var g := PollCompensationTask(i, id);
            var j := Run(g, [HeartbeatCompensation(id), Elsewhere(301, 0, 0)]);
            && j.now <= g.comps[id].lockedUntil.value && id in j.comps
            && PollCompensationTask(j, id).comps[id].attempt == i.comps[id].attempt + 2
            && PollCompensationTask(j, id) != j
  {
    var g := PollCompensationTask(i, id);
    var h := HeartbeatCompensationTask(g, id);
    var steps := [HeartbeatCompensation(id), Elsewhere(301, 0, 0)];
    assert steps[..1] == [HeartbeatCompensation(id)] && steps[..1][..0] == [];
    assert Run(g, []) == g;
    assert Run(g, steps[..1]) == h;
    assert Run(g, steps) == h.(now := h.now + 301);
  }

  lemma Granted(i: Instance, id: int)
    requires id in i.comps && Eligible(i.comps[id], i.now)
    ensures var g := PollCompensationTask(i, id);
            && id in g.comps && g.comps[id].state == Running && g.comps[id].timeoutSeconds == i.comps[id].timeoutSeconds
            && g.comps[id].lockedUntil == Some(i.now + CompensationLease(i.comps[id]))
  {
  }

  lemma ExclusiveAfterGrant(r: Request, acts: seq<Action>, id: int, later: seq<Action>)
    requires WellFormed(r.steps)
    requires var i := Run(Begin(r), acts);
             id in i.comps && Eligible(i.comps[id], i.now) && i.comps[id].timeoutSeconds <= 300
    ensures var i := Run(Begin(r), acts);
            var j := Run(PollCompensationTask(i, id), later);
            j.now <= i.now + CompensationLease(i.comps[id]) ==> PollCompensationTask(j, id) == j
  {
    var i := Run(Begin(r), acts);
    var more := acts + [PollCompensation(id)];
    Granted(i, id);
    assert more[..|more| - 1] == acts;
    assert Run(Begin(r), more) == PollCompensationTask(i, id);
    hide Run, Begin, PollCompensationTask, Eligible;
    CompensationLeaseIsExclusive(r, more, id, later);
  }

  /** Until the given time the task is not granted to anybody else, whatever happens. */
  ghost predicate KeepsPromise(g: Instance, id: int, until: int) {
    forall later :: Run(g, later).now <= until ==> PollCompensationTask(Run(g, later), id) == Run(g, later)
  }

  lemma PromiseKept(r: Request, acts: seq<Action>, id: int)
    requires WellFormed(r.steps)
    requires var i := Run(Begin(r), acts);
             id in i.comps && Eligible(i.comps[id], i.now) && i.comps[id].timeoutSeconds <= 300
    ensures var i := Run(Begin(r), acts);
            KeepsPromise(PollCompensationTask(i, id), id, i.now + CompensationLease(i.comps[id]))
  {
    hide Run, Begin, PollCompensationTask, Eligible;
    var i := Run(Begin(r), acts);
    forall later | Run(PollCompensationTask(i, id), later).now <= i.now + CompensationLease(i.comps[id])
      ensures var j := Run(PollCompensationTask(i, id), later); PollCompensationTask(j, id) == j
    {
      ExclusiveAfterGrant(r, acts, id, later);
    }
  }

  lemma PromiseBroken(i: Instance, id: int)
    requires id in i.comps && Eligible(i.comps[id], i.now) && i.comps[id].timeoutSeconds > 300
    ensures !KeepsPromise(PollCompensationTask(i, id), id, i.now + CompensationLease(i.comps[id]))
  {
    Granted(i, id);
    GrantedTwice(i, id);
    hide Run, PollCompensationTask, Eligible;
  }

  /** In a run, the promise made by granting a compensation task (nobody else gets it before the lease
      that was granted runs out) is kept by every continuation if and only if the timeout of its step
      is at most 300 seconds. Otherwise a heartbeat shortens the lease, and 301 seconds later the task
      is granted a second time. */
  lemma CompensationLeaseExactlyWhen(r: Request, acts: seq<Action>, id: int)
    requires WellFormed(r.steps)
    requires var i := Run(Begin(r), acts); id in i.comps && Eligible(i.comps[id], i.now)
    ensures var i := Run(Begin(r), acts);
            var g := PollCompensationTask(i, id);
            && id in g.comps && g.comps[id].lockedUntil == Some(i.now + CompensationLease(i.comps[id]))
            && (KeepsPromise(g, id, g.comps[id].lockedUntil.value) <==> i.comps[id].timeoutSeconds <= 300)
  {
    hide Run, Begin, PollCompensationTask, Eligible, KeepsPromise;
    var i := Run(Begin(r), acts);
    Granted(i, id);
    if i.comps[id].timeoutSeconds <= 300 {
      PromiseKept(r, acts, id);
    } else {
      PromiseBroken(i, id);
    }
  }

  // ---------------------------------------------------------------- rows that are never granted again

  /** An id that was issued and names no active row. */
  predicate Dormant(i: Instance, id: int) {
    id < i.nextId && (id in i.comps ==> !Active(i.comps[id]))
  }

  lemma DormantStays(i: Instance, a: Action, id: int)
    requires Inv(i) && Dormant(i, id)
    ensures Dormant(Next(i, a), id)
  {
    hide Inv, Next;
    NextKeeps(i, a);
    CompensationRowStep(i, a, id);
  }

  lemma {:induction false} NeverGrantedAgain(i: Instance, acts: seq<Action>, id: int)
    requires Inv(i) && Dormant(i, id)
    ensures Dormant(Run(i, acts), id) && PollCompensationTask(Run(i, acts), id) == Run(i, acts)
  {
    hide Inv, Next;
    if acts != [] {
      NeverGrantedAgain(i, acts[..|acts| - 1], id);
      RunKeeps(i, acts[..|acts| - 1]);
      DormantStays(Run(i, acts[..|acts| - 1]), acts[|acts| - 1], id);
    }
  }

  lemma ReportedIsGone(i: Instance, id: int, result: Bytes, err: string)
    requires Inv(i) && id in i.comps && !IsTerminal(i.exec.state)
    ensures id !in Next(i, ReportCompensation(id, result, err)).comps
  {
    hide Inv, Next, TaskFate, First;
    Fates(i, ReportCompensation(id, result, err), id);
  }

  lemma LateReportSettles(i: Instance, id: int, result: Bytes, err: string)
    requires id in i.comps && IsTerminal(i.exec.state)
    ensures var n := Next(i, ReportCompensation(id, result, err)); id in n.comps && !Active(n.comps[id])
  {
  }

  lemma SettledIsDormant(i: Instance, id: int, result: Bytes, err: string)
    requires Inv(i) && id in i.comps
    ensures Dormant(Next(i, ReportCompensation(id, result, err)), id)
            && Inv(Next(i, ReportCompensation(id, result, err)))
    ensures Closed(i) ==> Dormant(i, id)
  {
    hide Inv, Next;
    RowsAreDistinct(i);
    NextKeeps(i, ReportCompensation(id, result, err));
    if Closed(i) { ClosedHasNoActive(i); }
    if IsTerminal(i.exec.state) {
      LateReportSettles(i, id, result, err);
    } else {
      ReportedIsGone(i, id, result, err);
    }
  }

  /** Settled and cancelled compensation tasks are never granted again. */
  lemma SettledIsNeverGranted(i: Instance, id: int, result: Bytes, err: string, acts: seq<Action>)
    requires Inv(i) && id in i.comps
    ensures var j := Run(Next(i, ReportCompensation(id, result, err)), acts); PollCompensationTask(j, id) == j
    ensures Closed(i) ==> PollCompensationTask(Run(i, acts), id) == Run(i, acts)
  {
    SettledIsDormant(i, id, result, err);
    hide Inv, Next;
    NeverGrantedAgain(Next(i, ReportCompensation(id, result, err)), acts, id);
    if Closed(i) {
      NeverGrantedAgain(i, acts, id);
    }
  }

  // ---------------------------------------------------------------- when a compensation task is granted

  /** No step of these polls the compensation task or sends a heartbeat for it. */
  predicate NobodyTouches(later: seq<Action>, id: int) {
    PollCompensation(id) !in later && HeartbeatCompensation(id) !in later
  }

  lemma {:induction false} UntouchedRow(i: Instance, later: seq<Action>, id: int)
    requires Inv(i) && id < i.nextId && NobodyTouches(later, id)
    ensures var m := Run(i, later);
            id in m.comps && Active(m.comps[id]) ==> id in i.comps && m.comps[id] == i.comps[id]
  {
    hide Inv, Next, TaskFate;
    if later != [] {
      var front, a := later[..|later| - 1], later[|later| - 1];
      assert a in later && forall b :: b in front ==> b in later;
      UntouchedRow(i, front, id);
      RunKeeps(i, front);
      IdsGrow(i, front);
      Fates(Run(i, front), a, id);
      NextKeeps(Run(i, front), a);
    }
  }

  /** As long as nobody touches it, an active compensation task is granted exactly from its scheduled time on if it
      is waiting, and exactly after its lease has run out if it is leased: no compensation task is lost with its
      worker. */
  lemma GrantedExactlyWhen(i: Instance, later: seq<Action>, id: int)
    requires Inv(i) && id in i.comps && NobodyTouches(later, id)
    ensures var m := Run(i, later);
            id in m.comps && Active(m.comps[id]) ==>
              (Next(m, PollCompensation(id)) != m
               <==> if i.comps[id].state == Created then m.now >= i.comps[id].scheduledAt
                    else i.comps[id].lockedUntil.Some? && m.now > i.comps[id].lockedUntil.value)
  {
    RowsAreDistinct(i);
    hide Inv, Run;
    UntouchedRow(i, later, id);
  }

  lemma TimeoutOfItsStep(i: Instance, id: int)
    requires Inv(i) && id in i.comps
    ensures 1 <= i.comps[id].stepIndex <= |i.steps|
    ensures i.comps[id].timeoutSeconds == i.steps[i.comps[id].stepIndex - 1].timeoutSeconds > 0
    ensures id < i.nextId
  {
    OneCompensation(i, id);
    hide Outputs, Undone, CompensationSteps;
    CompensationStepsSelect(i.steps, |Outputs(i.history)|);
  }

  /** What a poll and a heartbeat write into a row: the one leases it for its timeout, the other for 300
      seconds. */
  lemma Leasing(i: Instance, a: Action, id: int)
    requires id in i.comps && i.comps[id].timeoutSeconds > 0
    requires (a == PollCompensation(id) && Next(i, a) != i)
             || (a == HeartbeatCompensation(id) && i.comps[id].state == Running)
    ensures var n := Next(i, a);
            var lease := if a.PollCompensation? then i.comps[id].timeoutSeconds else 300;
            && n.now == i.now && id in n.comps
            && n.comps[id] == i.comps[id].(state := Running, lockedUntil := Some(i.now + lease),
                                           attempt := i.comps[id].attempt + if a.PollCompensation? then 1 else 0)
  {
  }

  /** Up to the given time the row, if active, is leased at least until then. */
  predicate HeldUntil(i: Instance, id: int, until: int) {
    && id < i.nextId && until <= i.now + 300
    && (i.now <= until && id in i.comps && Active(i.comps[id]) ==>
          i.comps[id].state == Running && i.comps[id].lockedUntil.Some? && i.comps[id].lockedUntil.value >= until)
  }

  lemma StaysHeld(i: Instance, a: Action, id: int, until: int)
    requires Inv(i) && HeldUntil(i, id, until)
    ensures HeldUntil(Next(i, a), id, until)
  {
    hide Inv, Next;
    NextKeeps(i, a);
    CompensationRowStep(i, a, id);
  }

  lemma {:induction false} HeldInRuns(i: Instance, later: seq<Action>, id: int, until: int)
    requires Inv(i) && HeldUntil(i, id, until)
    ensures HeldUntil(Run(i, later), id, until)
  {
    hide Inv, Next, HeldUntil;
    if later != [] {
      var front := later[..|later| - 1];
      HeldInRuns(i, front, id, until);
      RunKeeps(i, front);
      StaysHeld(Run(i, front), later[|later| - 1], id, until);
    }
  }

  lemma Held(i: Instance, id: int, until: int)
    requires id in i.comps && id < i.nextId && until <= i.now + 300
    requires i.comps[id].state == Running && i.comps[id].lockedUntil == Some(until)
    ensures HeldUntil(i, id, until)
  {
  }

  lemma NotGrantedWhileHeld(i: Instance, id: int, until: int)
    requires HeldUntil(i, id, until) && i.now <= until
    ensures Next(i, PollCompensation(id)) == i
  {
  }

  /** In every run, a poll that grants a compensation task leases it for the timeout of its step, and a
      heartbeat for 300 seconds from now, whatever the timeout. After a heartbeat no continuation grants
      it within the 300 seconds. If its worker is not heard of again, it is granted to another exactly
      when the lease has run out. */
  lemma LeaseRunsForTheTimeout(r: Request, acts: seq<Action>, a: Action, id: int, later: seq<Action>)
    requires WellFormed(r.steps)
    requires var i := Run(Begin(r), acts);
             id in i.comps && ((a == PollCompensation(id) && Next(i, a) != i)
                               || (a == HeartbeatCompensation(id) && i.comps[id].state == Running))
    ensures var i := Run(Begin(r), acts);
            var k, g := i.comps[id].stepIndex, Next(i, a);
            && 1 <= k <= |r.steps|
            && var until := i.now + if a.PollCompensation? then r.steps[k - 1].timeoutSeconds else 300;
            && id in g.comps && g.comps[id].state == Running && g.comps[id].lockedUntil == Some(until)
            && var m := Run(g, later);
            && (a.HeartbeatCompensation? && m.now <= until ==> Next(m, PollCompensation(id)) == m)
            && (NobodyTouches(later, id) && id in m.comps && Active(m.comps[id]) ==>
                  (Next(m, PollCompensation(id)) != m <==> m.now > until))
  {
    hide Inv, Run, Begin, Next, WellFormed, Active, HeldUntil;
    var i := Run(Begin(r), acts);
    var g := Next(i, a);
    AfterAnyRun(r, acts);
    TimeoutOfItsStep(i, id);
    Leasing(i, a, id);
    NextKeeps(i, a);
    if NobodyTouches(later, id) { GrantedExactlyWhen(g, later, id); }
    var m := Run(g, later);
    if a.HeartbeatCompensation? && m.now <= i.now + 300 {
      Held(g, id, i.now + 300);
      HeldInRuns(g, later, id, i.now + 300);
      NotGrantedWhileHeld(m, id, i.now + 300);
    }
  }
}
