/** The append-only history of one execution and the queries over it
    (infrastructure/persistence/history_repository.go). */
module History {
  import opened Domain

  /** The results of the STEP_COMPLETED events, in the order they were logged. */
  function Outputs(h: seq<Event>): seq<TaskOutput> {
    if h == [] then []
    else
      var rest := Outputs(h[..|h| - 1]);
      var e := h[|h| - 1];
      if e.kind == StepCompleted then rest + [OutputOf(e)] else rest
  }

  /** The step indices of the COMPENSATION_COMPLETED events, in the order they were logged. */
  function Undone(h: seq<Event>): seq<int> {
    if h == [] then []
    else
      var rest := Undone(h[..|h| - 1]);
      if h[|h| - 1].kind == CompensationCompleted then rest + [h[|h| - 1].step] else rest
  }

  predicate Closing(k: EventType) {
    k == WorkflowCompleted || k == WorkflowFailed || k == WorkflowCancelled
  }

  /** The events that end a history stream, in the order they were logged. */
  function Endings(h: seq<Event>): seq<EventType> {
    if h == [] then []
    else
      var rest := Endings(h[..|h| - 1]);
      if Closing(h[|h| - 1].kind) then rest + [h[|h| - 1].kind] else rest
  }

  predicate RolledBack(h: seq<Event>) {
    exists k :: 0 <= k < |h| && h[k].kind == SagaRolledBack
  }

  /** Event ids grow along the history and stay below the next id of the sequence. */
  ghost predicate Ordered(h: seq<Event>, next: int) {
    && (forall j, k :: 0 <= j < k < |h| ==> h[j].id < h[k].id)
    && (forall k :: 0 <= k < |h| ==> 0 <= h[k].id < next)
  }

  function OutputOf(e: Event): TaskOutput {
    TaskOutput(e.step, e.stepName, if e.payload.Raw? then e.payload.bytes else [])
  }

  lemma AppendOrdered(h: seq<Event>, e: Event)
    ensures Ordered(h, e.id) && 0 <= e.id ==> Ordered(h + [e], e.id + 1)
  {
    var r := h + [e];
    assert forall k :: 0 <= k < |h| ==> r[k] == h[k];
  }

  lemma AppendRolledBack(h: seq<Event>, e: Event)
    ensures RolledBack(h + [e]) <==> RolledBack(h) || e.kind == SagaRolledBack
  {
    var r := h + [e];
    assert r[|h|] == e;
    assert forall k :: 0 <= k < |h| ==> r[k] == h[k];
  }

  function Append(h: seq<Event>, e: Event): (r: seq<Event>)
    ensures r != [] && r[|r| - 1] == e
    ensures Outputs(r) == if e.kind == StepCompleted then Outputs(h) + [OutputOf(e)] else Outputs(h)
    ensures Undone(r) == if e.kind == CompensationCompleted then Undone(h) + [e.step] else Undone(h)
    ensures Endings(r) == if Closing(e.kind) then Endings(h) + [e.kind] else Endings(h)
    ensures RolledBack(r) <==> RolledBack(h) || e.kind == SagaRolledBack
    ensures Ordered(h, e.id) && 0 <= e.id ==> Ordered(r, e.id + 1)
  {
    hide Ordered, RolledBack;
    AppendRolledBack(h, e);
    AppendOrdered(h, e);
    assert (h + [e])[..|h|] == h;
    h + [e]
  }

  /** Extending a history keeps what was recorded as a prefix. */
  lemma {:induction false} OutputsGrow(h: seq<Event>, more: seq<Event>)
    ensures Outputs(h) <= Outputs(h + more) && Undone(h) <= Undone(h + more)
    ensures Endings(h) <= Endings(h + more)
  {
    if more == [] {
      assert h + more == h;
    } else {
      var front := more[..|more| - 1];
      OutputsGrow(h, front);
      assert (h + more)[..|h + more| - 1] == h + front;
    }
  }

  // ---------------------------------------------------------------- ordered results

  function InsertByStep(sorted: seq<TaskOutput>, o: TaskOutput): seq<TaskOutput> {
    if sorted == [] || sorted[|sorted| - 1].stepIndex <= o.stepIndex then sorted + [o]
    else InsertByStep(sorted[..|sorted| - 1], o) + [sorted[|sorted| - 1]]
  }

  function SortByStep(outs: seq<TaskOutput>): seq<TaskOutput> {
    if outs == [] then [] else InsertByStep(SortByStep(outs[..|outs| - 1]), outs[|outs| - 1])
  }

  /** GetStepOutputs. */
  function StepOutputs(h: seq<Event>): seq<TaskOutput> {
    SortByStep(Outputs(h))
  }

  ghost predicate Ascending(s: seq<TaskOutput>) {
    forall j, k :: 0 <= j < k < |s| ==> s[j].stepIndex <= s[k].stepIndex
  }

  ghost predicate DistinctSteps(s: seq<TaskOutput>) {
    forall j, k :: 0 <= j < k < |s| ==> s[j].stepIndex != s[k].stepIndex
  }

  lemma {:induction false} InsertKeepsBound(s: seq<TaskOutput>, o: TaskOutput, m: int)
    requires o.stepIndex <= m && forall k :: 0 <= k < |s| ==> s[k].stepIndex <= m
    ensures forall k :: 0 <= k < |InsertByStep(s, o)| ==> InsertByStep(s, o)[k].stepIndex <= m
  {
    if s != [] && s[|s| - 1].stepIndex > o.stepIndex {
      InsertKeepsBound(s[..|s| - 1], o, m);
    }
  }

  lemma {:induction false} InsertKeepsContents(s: seq<TaskOutput>, o: TaskOutput)
    ensures multiset(InsertByStep(s, o)) == multiset(s) + multiset{o}
  {
    if s != [] && s[|s| - 1].stepIndex > o.stepIndex {
      InsertKeepsContents(s[..|s| - 1], o);
      assert s == s[..|s| - 1] + [s[|s| - 1]];
    }
  }

  lemma {:induction false} InsertByStepInserts(s: seq<TaskOutput>, o: TaskOutput)
    requires Ascending(s)
    ensures Ascending(InsertByStep(s, o))
    ensures multiset(InsertByStep(s, o)) == multiset(s) + multiset{o}
  {
    InsertKeepsContents(s, o);
    if s != [] && s[|s| - 1].stepIndex > o.stepIndex {
      InsertByStepInserts(s[..|s| - 1], o);
      InsertKeepsBound(s[..|s| - 1], o, s[|s| - 1].stepIndex);
    }
  }

  lemma {:induction false} SortByStepSorts(outs: seq<TaskOutput>)
    ensures Ascending(SortByStep(outs)) && multiset(SortByStep(outs)) == multiset(outs)
    ensures |SortByStep(outs)| == |outs|
  {
    if outs != [] {
      SortByStepSorts(outs[..|outs| - 1]);
      InsertByStepInserts(SortByStep(outs[..|outs| - 1]), outs[|outs| - 1]);
      assert outs == outs[..|outs| - 1] + [outs[|outs| - 1]];
    }
    assert |multiset(SortByStep(outs))| == |multiset(outs)|;
  }

  lemma InsertAtTheEnd(s: seq<TaskOutput>, o: TaskOutput)
    requires s == [] || s[|s| - 1].stepIndex <= o.stepIndex
    ensures InsertByStep(s, o) == s + [o]
  {
  }

  /** Results logged in step order are returned as they are. */
  lemma {:induction false} SortedAlready(outs: seq<TaskOutput>)
    requires Ascending(outs)
    ensures SortByStep(outs) == outs
  {
    if outs != [] {
      var front, last := outs[..|outs| - 1], outs[|outs| - 1];
      SortedAlready(front);
      InsertAtTheEnd(front, last);
      assert SortByStep(outs) == InsertByStep(SortByStep(front), last);
    }
  }

  /** One result for each of the steps 1..n. */
  ghost predicate OnePerStep(outs: seq<TaskOutput>, n: nat) {
    && |outs| == n
    && DistinctSteps(outs)
    && forall k :: 0 <= k < |outs| ==> 1 <= outs[k].stepIndex <= n
  }

  lemma {:induction false} DistinctOnce(outs: seq<TaskOutput>, o: TaskOutput)
    requires DistinctSteps(outs)
    ensures multiset(outs)[o] <= 1
  {
    if outs != [] {
      var front, last := outs[..|outs| - 1], outs[|outs| - 1];
      assert outs == front + [last];
      DistinctOnce(front, o);
      assert last !in front;
    }
  }

  lemma TwiceCounts(s: seq<TaskOutput>, j: nat, k: nat)
    requires j < k < |s|
    ensures s[j] == s[k] ==> multiset(s)[s[j]] >= 2
  {
    assert s == s[..k] + [s[k]] + s[k + 1..];
    assert s[j] in s[..k];
  }

  lemma DistinctStepsSort(outs: seq<TaskOutput>, n: nat)
    requires DistinctSteps(outs) && forall k :: 0 <= k < |outs| ==> 1 <= outs[k].stepIndex <= n
    ensures var s := SortByStep(outs);
            && Ascending(s) && DistinctSteps(s) && |s| == |outs|
            && forall k :: 0 <= k < |s| ==> s[k] in outs && 1 <= s[k].stepIndex <= n
  {
    var s := SortByStep(outs);
    SortByStepSorts(outs);
    forall k | 0 <= k < |s| ensures s[k] in outs {
      assert s[k] in multiset(s);
    }
    forall j, k | 0 <= j < k < |s| ensures s[j].stepIndex != s[k].stepIndex {
      TwiceCounts(s, j, k);
      DistinctOnce(outs, s[j]);
    }
  }

  lemma {:induction false} AscendingFillsTheRange(s: seq<TaskOutput>, n: nat)
    requires Ascending(s) && DistinctSteps(s)
    requires forall k :: 0 <= k < |s| ==> 1 <= s[k].stepIndex <= n
    ensures |s| <= n
    ensures |s| == n ==> forall k :: 0 <= k < n ==> s[k].stepIndex == k + 1
  {
    if s != [] {
      var front, last := s[..|s| - 1], s[|s| - 1];
      AscendingFillsTheRange(front, last.stepIndex - 1);
    }
  }

  /** The ordered list has the result of step k at place k, whatever the order of completion. */
  lemma SortedByPlace(outs: seq<TaskOutput>, n: nat)
    requires OnePerStep(outs, n)
    ensures var s := SortByStep(outs);
            |s| == n && forall k :: 0 <= k < n ==> s[k].stepIndex == k + 1 && s[k] in outs
  {
    DistinctStepsSort(outs, n);
    AscendingFillsTheRange(SortByStep(outs), n);
  }

  /** Two completion orders with the same result for each step give the same ordered list. */
  lemma OrderOfCompletionIsInvisible(a: seq<TaskOutput>, b: seq<TaskOutput>, n: nat)
    requires OnePerStep(a, n) && OnePerStep(b, n)
    requires forall o, p :: o in a && p in b && o.stepIndex == p.stepIndex ==> o == p
    ensures SortByStep(a) == SortByStep(b)
  {
    SortedByPlace(a, n);
    SortedByPlace(b, n);
  }

  // ---------------------------------------------------------------- outputs by step

  /** The map built by the loop over the step outputs: the last result of a step wins. */
  function OutputByStep(outs: seq<TaskOutput>): map<int, Bytes> {
    if outs == [] then map[]
    else OutputByStep(outs[..|outs| - 1])[outs[|outs| - 1].stepIndex := outs[|outs| - 1].output]
  }

  /** The results of steps 1..m in step order. */
  ghost predicate InStepOrder(outs: seq<TaskOutput>) {
    forall k :: 0 <= k < |outs| ==> outs[k].stepIndex == k + 1
  }

  lemma {:induction false} OutputOfEachStep(outs: seq<TaskOutput>)
    requires InStepOrder(outs)
    ensures forall k :: k in OutputByStep(outs) <==> 1 <= k <= |outs|
    ensures forall k :: 1 <= k <= |outs| ==> OutputByStep(outs)[k] == outs[k - 1].output
  {
    if outs != [] {
      OutputOfEachStep(outs[..|outs| - 1]);
    }
  }
}
