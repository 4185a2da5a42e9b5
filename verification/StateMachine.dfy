/** The execution states and their transition table (domain/workflow/statemechine.go). */
module StateMachine {

  datatype State = Created | Running | Compensating | Completed | Failed | Cancelled

  function ValidTransitions(current: State): seq<State> {
    match current
    case Created => [Running, Cancelled]
    case Running => [Completed, Failed, Cancelled, Compensating]
    case Compensating => [Failed, Cancelled]
    case Completed => []
    case Failed => []
    case Cancelled => []
  }

  /** ValidateTransition: true where the source returns no error. */
  predicate CanMove(current: State, next: State) {
    next in ValidTransitions(current)
  }

  predicate IsTerminal(s: State) {
    |ValidTransitions(s)| == 0
  }

  /** A path of the transition table, as an execution's row may follow it. */
  ghost predicate IsPath(path: seq<State>) {
    forall k :: 0 < k < |path| ==> CanMove(path[k - 1], path[k])
  }

  function Height(s: State): nat {
    match s
    case Created => 3
    case Running => 2
    case Compensating => 1
    case _ => 0
  }

  /** No execution changes state more than three times, and it is stuck exactly in the
      three states that the UPDATE guards list by name. */
  lemma {:induction false} PathsAreShort(path: seq<State>)
    requires IsPath(path)
    ensures |path| <= 4
    ensures |path| > 0 ==> |path| <= 1 + Height(path[0]) - Height(path[|path| - 1])
    ensures forall s :: IsTerminal(s) <==> s in {Completed, Failed, Cancelled}
  {
    forall s ensures IsTerminal(s) <==> s in {Completed, Failed, Cancelled} {
      TerminalByName(s);
    }
    if |path| > 1 {
      var front := path[..|path| - 1];
      PathsAreShort(front);
      assert CanMove(front[|front| - 1], path[|path| - 1]);
    }
  }

  /** The guard "state NOT IN ('COMPLETED','FAILED','CANCELLED')" is IsTerminal. */
  lemma TerminalByName(s: State)
    ensures IsTerminal(s) <==> s in {Completed, Failed, Cancelled}
  {
  }
}
