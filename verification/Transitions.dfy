/** The transition table is exact: beyond CREATED, its edges are the changes of state that runs make. */
module Transitions {
  import opened StateMachine
  import opened Domain
  import opened Rows
  import opened Definitions
  import opened History
  import opened Instances
  import opened Invariants
  import opened Runs
  import opened Starting
  import opened Lifecycle
  import opened Journals
  import opened Verdicts
  import opened Causes
  import opened Results
  import S = SagaRollback
  import D = Schedules
  import L = Leases

  /** Some run is in state a, and its next step leads to state b. */
  ghost predicate Taken(a: State, b: State) {
    exists r: Request, acts: seq<Action>, act: Action :: Takes(r, acts, act, a, b)
  }

  ghost predicate Takes(r: Request, acts: seq<Action>, act: Action, a: State, b: State) {
    && WellFormed(r.steps)
    && Run(Begin(r), acts).exec.state == a && Next(Run(Begin(r), acts), act).exec.state == b
  }

  /** A CHAIN of one step, and a SAGA of two with a timeout, the first of which can be undone. */
  lemma Examples() returns (one: Request, two: Request)
    ensures WellFormed(one.steps) && one.kind == Chain && |one.steps| == 1
    ensures WellFormed(two.steps) && two.kind == Saga && |two.steps| == 2 && two.timeout > 0
    ensures two.steps[0].compensationStepName != ""
    ensures two.steps[0].maxAttempts == two.steps[1].maxAttempts == 1
  {
    var first := StepDef(1, "work", "undo", 1, "", 1);
    one := Request([first], Chain, "queue", [], 1, 0, 0, 0);
    two := Request([first, first.(stepIndex := 2)], Saga, "queue", [], 1, 0, 0, 0);
  }

  lemma AnyLiveRunMayBeCancelled(r: Request, acts: seq<Action>)
    requires WellFormed(r.steps) && Live(Run(Begin(r), acts))
    ensures Takes(r, acts, Cancel, Run(Begin(r), acts).exec.state, Cancelled)
  {
    hide Run, Begin, Inv, Next, WellFormed;
    AfterAnyRun(r, acts);
    CancelCancels(Run(Begin(r), acts));
  }

  lemma AnyLiveRunMayExpire(r: Request, acts: seq<Action>)
    requires WellFormed(r.steps) && r.timeout > 0 && Live(Run(Begin(r), acts))
    ensures Taken(Run(Begin(r), acts).exec.state, Failed)
  {
    hide Begin, Inv, WellFormed, Run;
    var i := Run(Begin(r), acts);
    var wait := Elsewhere(if i.now - r.now > r.timeout then 0 else r.now + r.timeout + 1 - i.now, 0, 0);
    OneMore(Begin(r), acts, wait);
    ExpiresExactlyWhen(r, acts + [wait]);
    assert Takes(r, acts + [wait], ExpireOverdue, i.exec.state, Failed);
  }

  /** A CHAIN or SAGA begins RUNNING with the task of its first step. */
  lemma FirstTask(r: Request)
    requires WellFormed(r.steps) && r.kind != Independent
    ensures var i := Run(Begin(r), []);
            && i == Begin(r) && i.exec.state == Running && i.steps == r.steps && i.exec.workflowType == r.kind
            && i.tasks.Keys == {r.nextId} && Outputs(i.history) == [] && Inv(i)
  {
    hide Inv, Begin;
    BeginKeeps(r);
    assert PlanOf(Begin(r)).steps == r.steps && PlanOf(Begin(r)).kind == r.kind;
  }

  lemma OneStepCompletes(r: Request)
    requires WellFormed(r.steps) && r.kind == Chain && |r.steps| == 1
    ensures Takes(r, [], Report(r.nextId, [], ""), Running, Completed)
  {
    hide Begin, Inv, Next, WellFormed, Outputs, Run;
    FirstTask(r);
    EveryStepIsTold(Begin(r), Report(r.nextId, [], ""));
  }

  /** After the first of two steps, the second is under way, and a poll gets it. */
  lemma SecondStep(r: Request) returns (id: int)
    requires WellFormed(r.steps) && r.kind == Saga && |r.steps| == 2
    ensures var i := Run(Begin(r), [Report(r.nextId, [], "")]);
            && i.exec.state == Running && |Outputs(i.history)| == 1
            && id in i.tasks && i.tasks[id].attempt == 0 && Next(i, Poll(id)) != i
  {
    hide Begin, Inv, Next, WellFormed, Outputs, Run;
    var a := Report(r.nextId, [], "");
    FirstTask(r);
    assert [] + [a] == [a];
    OneMore(Begin(r), [], a);
    var i := Run(Begin(r), [a]);
    EveryStepIsTold(Begin(r), a);
    AfterAnyRun(r, [a]);
    TerminalByName(Running);
    StepRecords(Begin(r), a);
    RowsWhileLive(i);
    id :| id in i.tasks;
    AcceptedIsGone(Begin(r), r.nextId, [], "");
    D.SuccessorsAreDue(r, [], a, id);
  }

  lemma UndoIsNext(r: Request)
    requires |r.steps| == 2 && r.steps[0].compensationStepName != ""
    ensures LastHandler(r.steps, 1) == 1
  {
  }

  /** The second step, polled once, fails for good, and the first has a handler: a rollback begins. */
  lemma RollbackBegins(r: Request) returns (acts: seq<Action>, act: Action)
    requires WellFormed(r.steps) && r.kind == Saga && |r.steps| == 2
    requires r.steps[0].compensationStepName != "" && r.steps[0].maxAttempts == r.steps[1].maxAttempts == 1
    ensures Takes(r, acts, act, Running, Compensating)
  {
    hide Begin, Inv, Next, WellFormed, Outputs, Run, LastHandler;
    UndoIsNext(r);
    var first := [Report(r.nextId, [], "")];
    var id := SecondStep(r);
    var i := Run(Begin(r), first);
    acts, act := first + [Poll(id)], Report(id, [], "failed");
    OneMore(Begin(r), first, Poll(id));
    var g := Run(Begin(r), acts);
    AfterAnyRun(r, first);
    AfterAnyRun(r, acts);
    L.Leasing(i, Poll(id), id);
    S.TasksAreTheirSteps(r, acts, id);
    EveryStepIsTold(i, Poll(id));
    NothingWritten(i, g);
    EveryStepIsTold(g, act);
  }

  lemma NothingWritten(i: Instance, g: Instance)
    requires g.history == i.history + Stamped(i.nextEvent, [])
    ensures g.history == i.history
  {
  }

  lemma TakenIsAllowed(r: Request, acts: seq<Action>, act: Action, a: State, b: State)
    requires Takes(r, acts, act, a, b) && a != b
    ensures CanMove(a, b)
  {
    hide Begin, Run, Next, WellFormed, Inv;
    AfterAnyRun(r, acts);
    NextKeeps(Run(Begin(r), acts), act);
  }

  lemma MayEnd(r: Request, acts: seq<Action>, b: State)
    requires WellFormed(r.steps) && r.timeout > 0 && Live(Run(Begin(r), acts))
    requires b == Cancelled || b == Failed
    ensures Taken(Run(Begin(r), acts).exec.state, b)
  {
    hide Begin, Run, Next, WellFormed, Inv, Takes;
    if b == Cancelled {
      AnyLiveRunMayBeCancelled(r, acts);
    } else {
      AnyLiveRunMayExpire(r, acts);
    }
  }

  /** Beyond CREATED, the transition table allows exactly the changes of state that some run makes. */
  lemma TableIsExact(a: State, b: State)
    requires a != Created && a != b
    ensures CanMove(a, b) <==> Taken(a, b)
  {
    hide Begin, Run, Next, WellFormed, Inv, Takes;
    if Taken(a, b) {
      var r, acts, act :| Takes(r, acts, act, a, b);
      TakenIsAllowed(r, acts, act, a, b);
    }
    if CanMove(a, b) {
      var one, two := Examples();
      FirstTask(two);
      var acts, act := RollbackBegins(two);
      if a == Running && b == Completed {
        OneStepCompletes(one);
      } else if a == Running && b != Compensating {
        MayEnd(two, [], b);
      } else if a == Compensating {
        OneMore(Begin(two), acts, act);
        RunOf(two, acts, act, Running, Compensating);
        MayEnd(two, acts + [act], b);
      }
    }
  }

  lemma RunOf(r: Request, acts: seq<Action>, act: Action, a: State, b: State)
    requires Takes(r, acts, act, a, b)
    ensures Next(Run(Begin(r), acts), act).exec.state == b
  {
  }
}
