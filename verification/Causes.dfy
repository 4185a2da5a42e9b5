/** Why executions end as they do, in every run: the history told from the beginning, and the cause of
    each final state. */
module Causes {
  import opened StateMachine
  import opened Domain
  import opened Rows
  import opened Definitions
  import opened History
  import opened Instances
  import opened Invariants
  import opened Preservation
  import opened Runs
  import opened Starting
  import opened Lifecycle
  import opened Journals
  import opened Verdicts

  /** The time by which the execution must be over. */
  function Deadline(r: Request): Option<int> {
    if r.timeout > 0 then Some(r.now + r.timeout) else None
  }

  // ---------------------------------------------------------------- the history, told from the beginning

  lemma BeginsTold(r: Request)
    requires WellFormed(r.steps)
    ensures Begin(r).history == [Event(r.nextEvent, WorkflowStarted, 0, "", Raw(r.input), "")]
    ensures Begin(r).exec.state == Running && Begin(r).exec.error == "" && Begin(r).sweep == Idle
  {
    hide Inv, Outputs, Undone, Endings, RolledBack, Ordered, FanOut;
    BeginKeeps(r);
    if r.kind == Independent { FanOutOnlyAddsTasks(r); }
  }

  lemma FanOutOnlyAddsTasks(r: Request)
    ensures forall i: Instance, n: nat :: n <= |i.steps| && FanOut(i, n).Some? ==>
              FanOut(i, n).value.history == i.history && FanOut(i, n).value.exec == i.exec
              && FanOut(i, n).value.sweep == i.sweep
  {
    forall i: Instance, n: nat | n <= |i.steps| && FanOut(i, n).Some?
      ensures FanOut(i, n).value.history == i.history && FanOut(i, n).value.exec == i.exec
              && FanOut(i, n).value.sweep == i.sweep
    {
      FansOut(i, n);
    }
  }

  lemma {:induction false} FansOut(i: Instance, n: nat)
    requires n <= |i.steps| && FanOut(i, n).Some?
    ensures var f := FanOut(i, n).value; f.history == i.history && f.exec == i.exec && f.sweep == i.sweep
  {
    if n > 0 { FansOut(i, n - 1); }
  }

  /** What happened in the last step of the run. */
  ghost function LastOutcome(r: Request, acts: seq<Action>): Outcome
    requires acts != []
  {
    OutcomeOf(Run(Begin(r), acts[..|acts| - 1]), Deadline(r), acts[|acts| - 1])
  }

  /** The events that the outcomes of a run amount to, one after the other. */
  ghost function Story(r: Request, acts: seq<Action>): seq<Entry> {
    if acts == [] then [Entry(WorkflowStarted, 0, "", Raw(r.input), "")]
    else
      var front := acts[..|acts| - 1];
      Story(r, front) + EventsOf(Run(Begin(r), front), LastOutcome(r, acts), acts[|acts| - 1])
  }

  function Entries(h: seq<Event>): seq<Entry> {
    seq(|h|, k requires 0 <= k < |h| => Entry(h[k].kind, h[k].step, h[k].stepName, h[k].payload, h[k].error))
  }

  lemma EntriesOfMore(h: seq<Event>, next: int, entries: seq<Entry>)
    ensures Entries(h + Stamped(next, entries)) == Entries(h) + entries
  {
  }

  lemma OneStepTold(r: Request, acts: seq<Action>, a: Action)
    requires WellFormed(r.steps)
    ensures var i := Run(Begin(r), acts);
            var o := OutcomeOf(i, Deadline(r), a);
            Told(i, Next(i, a), o, ErrorAfter(o, i, a), EventsOf(i, o, a))
  {
    hide Run, Begin, Inv, Next, Told, OutcomeOf, ErrorAfter, EventsOf;
    AfterAnyRun(r, acts);
    EveryStepIsTold(Run(Begin(r), acts), a);
  }

  /** In every run the history is exactly the story of the outcomes: nothing is left out, added, told
      twice or told in another order. */
  lemma {:induction false} HistoryIsTheStory(r: Request, acts: seq<Action>)
    requires WellFormed(r.steps)
    ensures Entries(Run(Begin(r), acts).history) == Story(r, acts)
  {
    hide Begin, Inv, Next, OutcomeOf, ErrorAfter, EventsOf, Entries, Stamped, StateAfter;
    if acts == [] {
      BeginsTold(r);
      assert Entries(Begin(r).history) == Story(r, []) by { FirstEntry(r); }
    } else {
      var front, a := acts[..|acts| - 1], acts[|acts| - 1];
      var i := Run(Begin(r), front);
      HistoryIsTheStory(r, front);
      OneStepTold(r, front, a);
      EntriesOfMore(i.history, i.nextEvent, EventsOf(i, LastOutcome(r, acts), a));
    }
  }

  lemma FirstEntry(r: Request)
    ensures Entries([Event(r.nextEvent, WorkflowStarted, 0, "", Raw(r.input), "")])
            == [Entry(WorkflowStarted, 0, "", Raw(r.input), "")]
  {
  }

  // ---------------------------------------------------------------- causes

  /** The final state that an outcome brings about. */
  function Ending(o: Outcome): Option<State> {
    match o
    case ExecutionDone => Some(Completed)
    case TaskFailed | NothingToUndo | UndoFailed | AllUndone | DeadlinePassed => Some(Failed)
    case UserCancelled => Some(Cancelled)
    case _ => None
  }

  /** Step k of the run brings the execution to the final state s. */
  ghost predicate Ends(r: Request, acts: seq<Action>, k: nat, s: State) {
    k < |acts| && Ending(OutcomeOf(Run(Begin(r), acts[..k]), Deadline(r), acts[k])) == Some(s)
  }

  lemma OnlyLiveOnesEnd(i: Instance, deadline: Option<int>, a: Action)
    ensures Ending(OutcomeOf(i, deadline, a)).Some? ==> Live(i)
    ensures var o := OutcomeOf(i, deadline, a);
            Live(i) ==>
              && (IsTerminal(StateAfter(o, i.exec.state)) <==> Ending(o).Some?)
              && (Ending(o).Some? ==> StateAfter(o, i.exec.state) == Ending(o).value)
    ensures var o := OutcomeOf(i, deadline, a); !Live(i) ==> StateAfter(o, i.exec.state) == i.exec.state
  {
    hide Outputs, LastHandler;
  }

  lemma EndsBefore(r: Request, acts: seq<Action>, a: Action, k: nat, s: State)
    requires k < |acts|
    ensures Ends(r, acts + [a], k, s) <==> Ends(r, acts, k, s)
  {
    hide Run, Begin, OutcomeOf;
    assert (acts + [a])[..k] == acts[..k];
  }

  lemma EndsNow(r: Request, acts: seq<Action>, a: Action, s: State)
    ensures Ends(r, acts + [a], |acts|, s) <==> Ending(OutcomeOf(Run(Begin(r), acts), Deadline(r), a)) == Some(s)
  {
    hide Run, Begin, OutcomeOf;
    assert (acts + [a])[..|acts|] == acts;
  }

  /** Every final state has its cause, and only its cause: an execution is COMPLETED, FAILED or CANCELLED
      if and only if one step of its run brought that about, and no run has two such steps. So an
      execution is CANCELLED exactly if a Cancel found it live, COMPLETED exactly if the result of its
      last open step was reported in time, and FAILED exactly if a task or a compensation failed for
      good, a rollback came to its end, or its deadline passed. */
  lemma {:induction false} EveryEndHasItsCause(r: Request, acts: seq<Action>, s: State)
    requires WellFormed(r.steps) && IsTerminal(s)
    ensures Run(Begin(r), acts).exec.state == s <==> exists k: nat :: Ends(r, acts, k, s)
    ensures forall j: nat, k: nat, t: State, u: State :: Ends(r, acts, j, t) && Ends(r, acts, k, u) ==> j == k && t == u
    ensures Live(Run(Begin(r), acts)) ==> forall k: nat, t: State :: !Ends(r, acts, k, t)
  {
    hide Begin, Inv, Next, OutcomeOf, ErrorAfter, EventsOf, Stamped, Ending, StateAfter;
    if acts == [] {
      assert Begin(r).exec.state == Running by { BeginsTold(r); }
    } else {
      var front, a := acts[..|acts| - 1], acts[|acts| - 1];
      var i := Run(Begin(r), front);
      assert front + [a] == acts;
      hide Ends;
      EveryEndHasItsCause(r, front, s);
      OneStepTold(r, front, a);
      OnlyLiveOnesEnd(i, Deadline(r), a);
      AfterAnyRun(r, front);
      LiveIsNotTerminal(i);
      forall k: nat, t: State | k < |front| ensures Ends(r, acts, k, t) <==> Ends(r, front, k, t) {
        EndsBefore(r, front, a, k, t);
      }
      forall t: State ensures Ends(r, acts, |front|, t) <==> Ending(OutcomeOf(i, Deadline(r), a)) == Some(t) {
        EndsNow(r, front, a, t);
      }
      AllEndsAreInTheRun(r, acts);
      AllEndsAreInTheRun(r, front);
    }
  }

  lemma AllEndsAreInTheRun(r: Request, acts: seq<Action>)
    ensures forall k: nat, t: State :: Ends(r, acts, k, t) ==> k < |acts|
  {
  }

  // ---------------------------------------------------------------- the state is in the history

  /** The state that an event announces, if it announces one. */
  function Announced(kind: EventType, before: State): State {
    match kind
    case WorkflowStarted => Running
    case CompensationStarted => Compensating
    case WorkflowCompleted => Completed
    case WorkflowFailed => Failed
    case WorkflowCancelled => Cancelled
    case _ => before
  }

  /** The state that somebody arrives at who reads nothing but the history. */
  function Replay(entries: seq<Entry>): State {
    if entries == [] then Created
    else Announced(entries[|entries| - 1].kind, Replay(entries[..|entries| - 1]))
  }

  lemma ReplayOneMore(told: seq<Entry>, e: Entry)
    ensures Replay(told + [e]) == Announced(e.kind, Replay(told))
  {
    assert (told + [e])[..|told|] == told;
  }

  lemma ReplayTwoMore(told: seq<Entry>, e: Entry, f: Entry)
    ensures Replay(told + [e, f]) == Announced(f.kind, Announced(e.kind, Replay(told)))
  {
    hide Replay, Announced;
    ReplayOneMore(told, e);
    ReplayOneMore(told + [e], f);
    assert told + [e, f] == (told + [e]) + [f];
  }

  lemma ReplayThreeMore(told: seq<Entry>, e: Entry, f: Entry, g: Entry)
    ensures Replay(told + [e, f, g]) == Announced(g.kind, Announced(f.kind, Announced(e.kind, Replay(told))))
  {
    hide Replay, Announced;
    ReplayTwoMore(told, e, f);
    ReplayOneMore(told + [e, f], g);
    assert told + [e, f, g] == (told + [e, f]) + [g];
  }

  lemma ReplayFourMore(told: seq<Entry>, e: Entry, f: Entry, g: Entry, h: Entry)
    ensures Replay(told + [e, f, g, h])
            == Announced(h.kind, Announced(g.kind, Announced(f.kind, Announced(e.kind, Replay(told)))))
  {
    hide Replay, Announced;
    ReplayThreeMore(told, e, f, g);
    ReplayOneMore(told + [e, f, g], h);
    assert told + [e, f, g, h] == (told + [e, f, g]) + [h];
  }

  /** The state announced by at most four entries after the state s. */
  function AnnouncedBy(es: seq<Entry>, s: State): State
    requires |es| <= 4
  {
    if |es| == 0 then s
    else if |es| == 1 then Announced(es[0].kind, s)
    else if |es| == 2 then Announced(es[1].kind, Announced(es[0].kind, s))
    else if |es| == 3 then Announced(es[2].kind, Announced(es[1].kind, Announced(es[0].kind, s)))
    else Announced(es[3].kind, Announced(es[2].kind, Announced(es[1].kind, Announced(es[0].kind, s))))
  }

  lemma ReplayMore(told: seq<Entry>, es: seq<Entry>)
    requires |es| <= 4
    ensures Replay(told + es) == AnnouncedBy(es, Replay(told))
  {
    hide Replay, Announced;
    if |es| == 0 {
      assert told + es == told;
    } else if |es| == 1 {
      ReplayOneMore(told, es[0]);
      assert es == [es[0]];
    } else if |es| == 2 {
      ReplayTwoMore(told, es[0], es[1]);
      assert es == [es[0], es[1]];
    } else if |es| == 3 {
      ReplayThreeMore(told, es[0], es[1], es[2]);
      assert es == [es[0], es[1], es[2]];
    } else {
      ReplayFourMore(told, es[0], es[1], es[2], es[3]);
      assert es == [es[0], es[1], es[2], es[3]];
    }
  }

  /** The events of an outcome announce the state that it leaves, but for the expiry, which announces
      it when its sweep is over. */
  lemma EventsAnnounce(i: Instance, o: Outcome, k: int, result: Bytes, err: string, told: seq<Entry>)
    requires !o.DeadlinePassed? && !o.FailureNoted? && Replay(told) == i.exec.state
    ensures Replay(told + Events(i, o, k, result, err)) == StateAfter(o, i.exec.state)
  {
    hide FinalPayload, Outputs, RollbackFailure, Replay;
    ReplayMore(told, Events(i, o, k, result, err));
  }

  lemma FailureAnnounced(i: Instance, told: seq<Entry>)
    ensures Replay(told + Events(i, FailureNoted, 0, [], "")) == Failed
  {
    hide Replay;
    ReplayMore(told, Events(i, FailureNoted, 0, [], ""));
  }

  lemma SweepMoves(i: Instance, a: Action)
    requires Inv(i)
    ensures var o := OutcomeOf(i, PlanOf(i).deadline, a);
            && (o == DeadlinePassed ==> Next(i, a).sweep == Flipped)
            && (o == FailureNoted ==> i.exec.state == Failed)
            && (Next(i, a).sweep == Idle ==> i.sweep == Idle || o == FailureNoted)
  {
    hide Inv, LastHandler, Outputs;
    LiveIsNotTerminal(i);
    SweepPhase(i);
    if Live(i) && ((a.Report? && a.id in i.tasks) || (a.ReportCompensation? && a.id in i.comps)) {
      hide Next;
    } else if a.Report? || a.ReportCompensation? {
      LateReportKeepsSweep(i, a);
      hide Next;
    } else if a.RecoverAtStartup? {
      RecoveryIsNothing(i);
      hide Next;
    } else {
      hide Append, CancelRows;
    }
  }

  lemma SweepPhase(i: Instance)
    requires Inv(i)
    ensures i.sweep != Idle ==> i.exec.state == Failed
  {
    hide Outputs, Undone, Endings, RolledBack, Ordered;
    TerminalByName(i.exec.state);
  }

  lemma LateReportKeepsSweep(i: Instance, a: Action)
    requires (a.Report? && (IsTerminal(i.exec.state) || a.id !in i.tasks))
             || (a.ReportCompensation? && (IsTerminal(i.exec.state) || a.id !in i.comps))
    ensures Next(i, a).sweep == i.sweep
  {
  }

  /** In every run, the state of an execution can be read off its history alone, unless an expiry sweep
      is under way, which writes its events last. */
  lemma {:induction false} StateIsInTheHistory(r: Request, acts: seq<Action>)
    requires WellFormed(r.steps)
    ensures var i := Run(Begin(r), acts); i.sweep == Idle ==> Replay(Entries(i.history)) == i.exec.state
  {
    hide Begin, Inv, Next, OutcomeOf, Entries, Stamped, StateAfter, Replay, Events, ErrorAfter, Story;
    HistoryIsTheStory(r, acts);
    if acts == [] {
      BeginsTold(r);
      assert Replay(Entries(Begin(r).history)) == Running by { FirstEntry(r); ReplayFirst(r); }
    } else {
      var front, a := acts[..|acts| - 1], acts[|acts| - 1];
      var i, o := Run(Begin(r), front), LastOutcome(r, acts);
      AfterAnyRun(r, front);
      StateIsInTheHistory(r, front);
      OneStepTold(r, front, a);
      SweepMoves(i, a);
      EntriesOfMore(i.history, i.nextEvent, EventsOf(i, o, a));
      OutcomeAnnounced(i, a, Entries(i.history));
    }
  }

  lemma ReplayFirst(r: Request)
    ensures Replay([Entry(WorkflowStarted, 0, "", Raw(r.input), "")]) == Running
  {
  }

  lemma OutcomeAnnounced(i: Instance, a: Action, told: seq<Entry>)
    ensures var o := OutcomeOf(i, PlanOf(i).deadline, a);
            && (Replay(told) == i.exec.state && !o.DeadlinePassed? && !o.FailureNoted? ==>
                  Replay(told + EventsOf(i, o, a)) == StateAfter(o, i.exec.state))
            && (o.FailureNoted? ==>
                  Replay(told + EventsOf(i, o, a)) == Failed && StateAfter(o, i.exec.state) == i.exec.state)
  {
    hide Replay, Events, Outputs, LastHandler;
    var o := OutcomeOf(i, PlanOf(i).deadline, a);
    if o.FailureNoted? {
      FailureAnnounced(i, told);
    } else if !o.DeadlinePassed? && Replay(told) == i.exec.state {
      assert told + [] == told;
      match a
      case Report(id, result, err) =>
        if id in i.tasks { EventsAnnounce(i, o, i.tasks[id].stepIndex, result, err, told); }
      case ReportCompensation(id, result, err) =>
        if id in i.comps { EventsAnnounce(i, o, i.comps[id].stepIndex, result, err, told); }
      case _ => EventsAnnounce(i, o, 0, [], "", told);
    }
  }

  // ---------------------------------------------------------------- cancelling

  /** The rows as they were, but those that were waiting or leased are CANCELLED and unlocked. */
  ghost predicate Withdrawn(rows: map<int, Row>, after: map<int, Row>) {
    && after.Keys == rows.Keys
    && forall id :: id in rows ==>
         after[id] == if rows[id].state == Created || rows[id].state == Running
                      then rows[id].(state := Cancelled, lockedUntil := None) else rows[id]
  }

  lemma RowsAreWithdrawn(rows: map<int, Row>)
    ensures Withdrawn(rows, CancelRows(rows)) && NoneActive(CancelRows(rows))
  {
  }

  /** Cancelling a live execution makes it CANCELLED, withdraws all its open tasks of both tables and
      writes one event; cancelling any other has no effect. */
  lemma CancelCancels(i: Instance)
    requires Inv(i)
    ensures var n := Next(i, Cancel);
            if Live(i) then
              && n == i.(exec := i.exec.(state := Cancelled), tasks := n.tasks, comps := n.comps,
                         history := i.history + [Event(i.nextEvent, WorkflowCancelled, 0, "", Empty, "")],
                         nextEvent := i.nextEvent + 1)
              && Withdrawn(i.tasks, n.tasks) && Withdrawn(i.comps, n.comps)
              && NoneActive(n.tasks) && NoneActive(n.comps)
            else n == i
  {
    hide Inv, Outputs, Undone, Endings, RolledBack, Ordered, CancelRows, Withdrawn, NoneActive;
    LiveIsNotTerminal(i);
    RowsAreWithdrawn(i.tasks);
    RowsAreWithdrawn(i.comps);
  }

  /** In every run, an execution is CANCELLED exactly if a Cancel found it live. */
  lemma CancelledExactlyWhen(r: Request, acts: seq<Action>)
    requires WellFormed(r.steps)
    ensures Run(Begin(r), acts).exec.state == Cancelled
            <==> exists k: nat :: k < |acts| && acts[k] == Cancel && Live(Run(Begin(r), acts[..k]))
  {
    hide Begin, Run;
    EveryEndHasItsCause(r, acts, Cancelled);
    forall k: nat | k < |acts|
      ensures Ends(r, acts, k, Cancelled) <==> acts[k] == Cancel && Live(Run(Begin(r), acts[..k]))
    {
      CancelledByCancel(Run(Begin(r), acts[..k]), Deadline(r), acts[k]);
    }
    if k: nat :| k < |acts| && acts[k] == Cancel && Live(Run(Begin(r), acts[..k])) {
      assert Ends(r, acts, k, Cancelled);
    }
  }

  lemma CancelledByCancel(i: Instance, deadline: Option<int>, a: Action)
    ensures Ending(OutcomeOf(i, deadline, a)) == Some(Cancelled) <==> a == Cancel && Live(i)
  {
    hide Outputs, LastHandler;
  }

  // ---------------------------------------------------------------- expiry

  /** In every run, the expiry fails an execution exactly if a timeout was given, more than that many
      seconds have passed since the start, and the execution is not over; it leaves all others as they
      are. */
  lemma ExpiresExactlyWhen(r: Request, acts: seq<Action>)
    requires WellFormed(r.steps)
    ensures var i := Run(Begin(r), acts);
            var n := Next(i, ExpireOverdue);
            && (n != i <==> r.timeout > 0 && i.now - r.now > r.timeout && Live(i))
            && (n != i ==>
                  n == i.(exec := i.exec.(state := Failed, error := "workflow exceeded its configured timeout"),
                                   sweep := Flipped))
  {
    hide Begin, Run, Inv;
    AfterAnyRun(r, acts);
    LiveIsNotTerminal(Run(Begin(r), acts));
  }

  const WHOLE_SWEEP := [ExpireOverdue, SweepStep, SweepStep, SweepStep, SweepStep]

  lemma WholeSweep(i: Instance)
    ensures Run(i, WHOLE_SWEEP) == SweepOn(SweepOn(SweepOn(SweepOn(Flip(i)))))
  {
    hide SweepOn, Flip;
    var all := WHOLE_SWEEP;
    assert all[..4][..3] == all[..3] && all[..3][..2] == all[..2] && all[..2][..1] == all[..1] && all[..1][..0] == [];
    assert Run(i, []) == i;
    assert Run(i, all[..1]) == Next(i, ExpireOverdue);
    assert Run(i, all[..2]) == Next(Run(i, all[..1]), SweepStep);
    assert Run(i, all[..3]) == Next(Run(i, all[..2]), SweepStep);
    assert Run(i, all[..4]) == Next(Run(i, all[..3]), SweepStep);
    assert Run(i, all) == Next(Run(i, all[..4]), SweepStep);
  }

  /** Expiry and the four statements of its sweep fail the execution, withdraw all its open tasks of both
      tables, and write two events. */
  lemma ExpiryCloses(i: Instance)
    requires Inv(i) && Live(i) && i.exec.deadlineAt.Some? && i.exec.deadlineAt.value < i.now
    ensures var n := Run(i, WHOLE_SWEEP);
            && n == i.(exec := i.exec.(state := Failed, error := TIMED_OUT), tasks := n.tasks, comps := n.comps,
                       history := i.history + [Event(i.nextEvent, WorkflowTimedOut, 0, "", Empty, TIMED_OUT),
                                               Event(i.nextEvent + 1, WorkflowFailed, 0, "", Empty, TIMED_OUT)],
                       nextEvent := i.nextEvent + 2)
            && Withdrawn(i.tasks, n.tasks) && Withdrawn(i.comps, n.comps)
            && Closed(n) && NoneActive(n.tasks) && NoneActive(n.comps)
  {
    hide Inv, Outputs, Undone, Endings, RolledBack, Ordered, CancelRows, Withdrawn, NoneActive, Run, Stamped;
    LiveIsNotTerminal(i);
    NoEndingYet(i);
    WholeSweep(i);
    RowsAreWithdrawn(i.tasks);
    RowsAreWithdrawn(i.comps);
    TerminalByName(Failed);
    var k := i.(exec := i.exec.(state := Failed, error := TIMED_OUT), tasks := CancelRows(i.tasks),
                comps := CancelRows(i.comps), sweep := CompensationsCancelled);
    assert SweepOn(SweepOn(Flip(i))) == k;
    LogsTwo(k, Note(WorkflowTimedOut, TIMED_OUT), Note(WorkflowFailed, TIMED_OUT));
    TwoStamped(i.nextEvent);
    hide Log;
  }

  lemma TwoStamped(next: int)
    ensures Stamped(next, [Note(WorkflowTimedOut, TIMED_OUT), Note(WorkflowFailed, TIMED_OUT)])
            == [Event(next, WorkflowTimedOut, 0, "", Empty, TIMED_OUT),
                Event(next + 1, WorkflowFailed, 0, "", Empty, TIMED_OUT)]
  {
  }
}
