/** The queries over a workflow's step definitions
    (infrastructure/persistence/workflow_definition_step.go). A step list is the rows of one
    definition in step_index order. */
module Definitions {
  import opened Domain

  /** Step indices run 1, 2, 3, ... */
  ghost predicate Indexed(steps: seq<StepDef>) {
    forall k :: 0 <= k < |steps| ==> steps[k].stepIndex == k + 1
  }

  /** What registration guarantees of a definition's steps. */
  ghost predicate WellFormed(steps: seq<StepDef>) {
    && |steps| > 0
    && Indexed(steps)
    && forall k :: 0 <= k < |steps| ==> steps[k].maxAttempts > 0 && steps[k].timeoutSeconds > 0
  }

  /** GetByDefinitionAndIndex; None is ErrNotFound. */
  function StepAt(steps: seq<StepDef>, index: int): Option<StepDef> {
    if steps == [] then None
    else if steps[|steps| - 1].stepIndex == index then Some(steps[|steps| - 1])
    else StepAt(steps[..|steps| - 1], index)
  }

  lemma {:induction false} StepAtFindsEveryIndex(steps: seq<StepDef>, index: int)
    requires Indexed(steps)
    ensures StepAt(steps, index) == if 1 <= index <= |steps| then Some(steps[index - 1]) else None
  {
    if steps != [] {
      StepAtFindsEveryIndex(steps[..|steps| - 1], index);
    }
  }

  predicate Compensates(s: StepDef, upTo: int) {
    s.stepIndex <= upTo && s.compensationStepName != ""
  }

  /** GetCompensationSteps: the steps up to an index that have a handler, last step first. */
  function CompensationSteps(steps: seq<StepDef>, upTo: int): seq<StepDef> {
    if steps == [] then []
    else
      var last := steps[|steps| - 1];
      var rest := CompensationSteps(steps[..|steps| - 1], upTo);
      if Compensates(last, upTo) then [last] + rest else rest
  }

  lemma {:induction false} SelectedSteps(steps: seq<StepDef>, upTo: int)
    ensures forall s :: s in CompensationSteps(steps, upTo) <==> s in steps && Compensates(s, upTo)
  {
    hide Compensates;
    if steps != [] {
      var front, last := steps[..|steps| - 1], steps[|steps| - 1];
      SelectedSteps(front, upTo);
      assert steps == front + [last];
    }
  }

  lemma {:induction false} SelectedInDescendingOrder(steps: seq<StepDef>, upTo: int)
    requires Indexed(steps)
    ensures var e := CompensationSteps(steps, upTo);
            && |e| <= |steps|
            && (forall j, k :: 0 <= j < k < |e| ==> e[j].stepIndex > e[k].stepIndex)
            && (forall j :: 0 <= j < |e| ==> e[j].stepIndex <= |steps|)
  {
    hide Compensates;
    if steps != [] {
      var front := steps[..|steps| - 1];
      SelectedInDescendingOrder(front, upTo);
      var e, rest := CompensationSteps(steps, upTo), CompensationSteps(front, upTo);
      assert forall j :: 0 <= j < |rest| ==> rest[j].stepIndex <= |front|;
      if Compensates(steps[|steps| - 1], upTo) {
        assert e == [steps[|steps| - 1]] + rest;
      }
    }
  }

  lemma PlaceOfAStep(steps: seq<StepDef>, s: StepDef)
    requires Indexed(steps) && s in steps
    ensures 1 <= s.stepIndex <= |steps| && steps[s.stepIndex - 1] == s
  {
  }

  /** The query returns every step with a handler up to the index, none else, in strictly
      descending order. */
  lemma CompensationStepsSelect(steps: seq<StepDef>, upTo: int)
    requires Indexed(steps)
    ensures var e := CompensationSteps(steps, upTo);
            && |e| <= |steps|
            && (forall s :: s in e <==> s in steps && Compensates(s, upTo))
            && (forall j :: 0 <= j < |e| ==> 1 <= e[j].stepIndex <= |steps| && steps[e[j].stepIndex - 1] == e[j])
            && (forall j, k :: 0 <= j < k < |e| ==> e[j].stepIndex > e[k].stepIndex)
  {
    var e := CompensationSteps(steps, upTo);
    SelectedSteps(steps, upTo);
    SelectedInDescendingOrder(steps, upTo);
    hide CompensationSteps, Compensates, Indexed;
    forall j | 0 <= j < |e| ensures 1 <= e[j].stepIndex <= |steps| && steps[e[j].stepIndex - 1] == e[j] {
      assert e[j] in e;
      PlaceOfAStep(steps, e[j]);
    }
  }

  lemma {:induction false} BoundBeyondTheLastStep(steps: seq<StepDef>, a: int, b: int)
    requires Indexed(steps) && a >= |steps| && b >= |steps|
    ensures CompensationSteps(steps, a) == CompensationSteps(steps, b)
  {
    if steps != [] {
      BoundBeyondTheLastStep(steps[..|steps| - 1], a, b);
    }
  }

  lemma LastStepIsBeyond(steps: seq<StepDef>, upTo: int)
    requires Indexed(steps) && steps != [] && upTo < |steps|
    ensures CompensationSteps(steps, upTo) == CompensationSteps(steps[..|steps| - 1], upTo)
  {
  }

  /** Asking again for the steps below the one just compensated continues the first answer: this
      is why the chain of single compensation tasks visits exactly the steps that were counted
      when the rollback began. */
  lemma {:induction false} AskingAgainContinues(steps: seq<StepDef>, upTo: int, j: nat)
    requires Indexed(steps) && j < |CompensationSteps(steps, upTo)|
    ensures var e := CompensationSteps(steps, upTo);
            && CompensationSteps(steps, e[j].stepIndex - 1) == e[j + 1..]
            && CompensationSteps(steps, e[j].stepIndex) == e[j..]
  {
    var front, last := steps[..|steps| - 1], steps[|steps| - 1];
    var e, rest := CompensationSteps(steps, upTo), CompensationSteps(front, upTo);
    SelectedInDescendingOrder(front, upTo);
    if Compensates(last, upTo) {
      assert e == [last] + rest;
      if j == 0 {
        BoundBeyondTheLastStep(front, upTo, |front|);
        BoundBeyondTheLastStep(front, upTo, |steps|);
      } else {
        AskingAgainContinues(front, upTo, j - 1);
        LastStepIsBeyond(steps, rest[j - 1].stepIndex - 1);
        LastStepIsBeyond(steps, rest[j - 1].stepIndex);
      }
    } else {
      AskingAgainContinues(front, upTo, j);
      LastStepIsBeyond(steps, rest[j].stepIndex - 1);
      LastStepIsBeyond(steps, rest[j].stepIndex);
    }
  }
}
