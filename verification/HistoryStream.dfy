/** The loop of StreamWorkflowHistory (interface/grpc/history_handler.go) beside a running
    execution. */
module HistoryStream {
  import opened StateMachine
  import opened Domain
  import opened Definitions
  import opened History
  import opened Instances
  import opened Invariants
  import opened Preservation
  import opened Runs
  import opened Starting
  import opened Lifecycle

  /** GetByExecutionAfter. */
  function EventsAfter(h: seq<Event>, cursor: int): seq<Event> {
    if h == [] then []
    else
      var rest := EventsAfter(h[..|h| - 1], cursor);
      if h[|h| - 1].id > cursor then rest + [h[|h| - 1]] else rest
  }

  datatype Phase = AtHead | Sending | Done

  /** lastSentEventID, what the client has received, the rest of the batch being sent, and
      terminalReached. complete tells the graceful end of the stream from a broken one. */
  datatype Stream = Stream(cursor: int, sent: seq<Event>, batch: seq<Event>, terminalReached: bool, phase: Phase,
                           complete: bool)

  const OPENED := Stream(-1, [], [], false, AtHead, false)

  function Fetch(s: Stream, h: seq<Event>): Stream {
    if s.phase == AtHead
    then s.(batch := EventsAfter(h, s.cursor), terminalReached := false, phase := Sending)
    else s
  }

  function SendOne(s: Stream): Stream {
    if s.phase != Sending then s
    else if s.batch != [] then
      s.(cursor := s.batch[0].id, sent := s.sent + [s.batch[0]], batch := s.batch[1..],
         terminalReached := s.terminalReached || Closing(s.batch[0].kind))
    else if s.terminalReached then s.(phase := Done, complete := true)
    else s.(phase := AtHead)
  }

  /** One event of the combined run: the execution moves, or the stream does; Break is a cancelled
      context or a failed send. */
  datatype Step = Engine(a: Action) | DoFetch | DoSend | Break

  function Move(i: Instance, s: Stream, step: Step): (Instance, Stream) {
    match step
    case Engine(a) => (Next(i, a), s)
    case DoFetch => (i, Fetch(s, i.history))
    case DoSend => (i, SendOne(s))
    case Break => (i, if s.phase == Done then s else s.(phase := Done))
  }

  function Watch(i: Instance, s: Stream, steps: seq<Step>): (Instance, Stream) {
    if steps == [] then (i, s)
    else
      var (j, t) := Watch(i, s, steps[..|steps| - 1]);
      Move(j, t, steps[|steps| - 1])
  }

  /** What was sent and what is left of the batch lie next to each other at the head of the
      history, and the cursor is the id of the last event sent. */
  ghost predicate InStep(h: seq<Event>, s: Stream) {
    && |s.sent| + |s.batch| <= |h|
    && s.sent == h[..|s.sent|]
    && s.batch == h[|s.sent|..|s.sent| + |s.batch|]
    && s.cursor == (if s.sent == [] then -1 else s.sent[|s.sent| - 1].id)
    && (s.phase != Done ==> (s.terminalReached <==> exists k :: 0 <= k < |s.sent| && Closing(s.sent[k].kind)))
    && (s.phase == AtHead ==> !s.terminalReached)
    && (s.complete ==> s.batch == [] && s.phase == Done && exists k :: 0 <= k < |s.sent| && Closing(s.sent[k].kind))
    && (s.phase == AtHead ==> s.batch == [])
  }

  lemma {:induction false} AfterTheCursor(h: seq<Event>, next: int, n: nat)
    requires Ordered(h, next) && n <= |h|
    ensures EventsAfter(h, if n == 0 then -1 else h[n - 1].id) == h[n..]
  {
    var cursor := if n == 0 then -1 else h[n - 1].id;
    if h != [] {
      var front, last := h[..|h| - 1], h[|h| - 1];
      if n == |h| {
        NothingAfterTheLast(h, cursor);
      } else {
        AfterTheCursor(front, next, n);
        assert n > 0 ==> front[n - 1] == h[n - 1];
        assert h[n..] == front[n..] + [last];
      }
    }
  }

  lemma {:induction false} NothingAfterTheLast(h: seq<Event>, cursor: int)
    requires forall k :: 0 <= k < |h| ==> h[k].id <= cursor
    ensures EventsAfter(h, cursor) == []
  {
    if h != [] {
      NothingAfterTheLast(h[..|h| - 1], cursor);
    }
  }

  lemma FetchKeeps(h: seq<Event>, next: int, s: Stream)
    requires Ordered(h, next) && InStep(h, s)
    ensures InStep(h, Fetch(s, h))
  {
    AfterTheCursor(h, next, |s.sent|);
    hide Ordered, EventsAfter;
  }

  lemma SendKeeps(h: seq<Event>, s: Stream)
    requires InStep(h, s)
    ensures InStep(h, SendOne(s))
  {
    if s.phase == Sending && s.batch != [] {
      var t := SendOne(s);
      assert s.batch[0] == h[|s.sent|];
      assert t.sent == h[..|t.sent|];
      assert t.batch == h[|t.sent|..|t.sent| + |t.batch|];
      if t.terminalReached {
        if s.terminalReached {
          var k :| 0 <= k < |s.sent| && Closing(s.sent[k].kind);
          assert t.sent[k] == s.sent[k];
        } else {
          assert t.sent[|s.sent|] == s.batch[0];
        }
      }
    }
  }

  lemma InStepWhenHistoryGrows(h: seq<Event>, r: seq<Event>, s: Stream)
    requires InStep(h, s) && Grew(h, r)
    ensures InStep(r, s)
  {
    assert r[..|s.sent|] == h[..|s.sent|];
    assert r[|s.sent|..|s.sent| + |s.batch|] == h[|s.sent|..|s.sent| + |s.batch|];
  }

  lemma {:induction false} StaysInStep(i: Instance, s: Stream, steps: seq<Step>)
    requires Inv(i) && InStep(i.history, s)
    ensures var (j, t) := Watch(i, s, steps); Inv(j) && InStep(j.history, t)
  {
    hide Inv, InStep, Fetch, SendOne, Next;
    if steps != [] {
      StaysInStep(i, s, steps[..|steps| - 1]);
      var (j, t) := Watch(i, s, steps[..|steps| - 1]);
      var step := steps[|steps| - 1];
      assert Ordered(j.history, j.nextEvent) by { HistoryOrdered(j); }
      match step
      case Engine(a) =>
        NextKeeps(j, a);
        InStepWhenHistoryGrows(j.history, Next(j, a).history, t);
      case DoFetch => FetchKeeps(j.history, j.nextEvent, t);
      case DoSend => SendKeeps(j.history, t);
      case Break => BreakKeeps(j.history, t);
    }
  }

  lemma BreakKeeps(h: seq<Event>, s: Stream)
    requires InStep(h, s)
    ensures InStep(h, if s.phase == Done then s else s.(phase := Done))
  {
  }

  lemma HistoryOrdered(i: Instance)
    requires Inv(i)
    ensures Ordered(i.history, i.nextEvent)
  {
  }

  lemma {:induction false} NoEndingNoClosing(h: seq<Event>)
    requires Endings(h) == []
    ensures forall k :: 0 <= k < |h| ==> !Closing(h[k].kind)
  {
    if h != [] {
      NoEndingNoClosing(h[..|h| - 1]);
    }
  }

  lemma EndingsByPhase(i: Instance)
    requires Inv(i)
    ensures !Closed(i) ==> Endings(i.history) == []
    ensures Closed(i) ==> i.history != [] && |Endings(i.history)| == 1 && Closing(i.history[|i.history| - 1].kind)
  {
    hide Outputs, Undone, Endings, RolledBack, Ordered;
    TerminalByName(i.exec.state);
  }

  /** An ending event in the history of an execution is its last event. */
  lemma EndingIsLast(i: Instance, k: nat)
    requires Inv(i) && k < |i.history| && Closing(i.history[k].kind)
    ensures k == |i.history| - 1 && Closed(i)
  {
    var h := i.history;
    EndingsByPhase(i);
    hide Inv;
    if !Closed(i) {
      NoEndingNoClosing(h);
    } else {
      assert Endings(h) == Endings(h[..|h| - 1]) + [h[|h| - 1].kind];
      assert |Endings(h)| == 1;
      NoEndingNoClosing(h[..|h| - 1]);
    }
  }

  /** For every interleaving of engine steps and stream steps, from any state an execution can
      reach: what the client has received is a prefix of the history in id order, without gaps or
      duplicates, and a stream that closes gracefully has sent the whole history, to which nothing
      is ever added. */
  lemma StreamIsComplete(r: Request, acts: seq<Action>, steps: seq<Step>)
    requires WellFormed(r.steps)
    ensures var (i, s) := Watch(Run(Begin(r), acts), OPENED, steps);
            && s.sent <= i.history
            && (forall j, k :: 0 <= j < k < |s.sent| ==> s.sent[j].id < s.sent[k].id)
            && (s.complete ==> s.sent == i.history && Closed(i))
  {
    hide Inv, Run, Begin, Watch, Outputs, Undone, Endings;
    AfterAnyRun(r, acts);
    var i0 := Run(Begin(r), acts);
    StaysInStep(i0, OPENED, steps);
    var (i, s) := Watch(i0, OPENED, steps);
    HistoryOrdered(i);
    if s.complete {
      var k :| 0 <= k < |s.sent| && Closing(s.sent[k].kind);
      assert i.history[k] == s.sent[k];
      EndingIsLast(i, k);
    }
  }

  // ---------------------------------------------------------------- progress

  /** One round of the loop, as long as n sends take. */
  function Round(n: nat): seq<Step> {
    if n == 0 then [DoFetch] else Round(n - 1) + [DoSend]
  }

  /** The stream as it is after n sends of a round. */
  ghost predicate MidRound(h: seq<Event>, s: Stream, n: nat, t: Stream) {
    && |s.sent| + n <= |h| && InStep(h, t) && t.phase == Sending
    && t.sent == h[..|s.sent| + n] && t.batch == h[|s.sent| + n..]
  }

  lemma RoundBegins(h: seq<Event>, next: int, s: Stream)
    requires Ordered(h, next) && InStep(h, s) && s.phase == AtHead
    ensures MidRound(h, s, 0, Fetch(s, h))
  {
    AfterTheCursor(h, next, |s.sent|);
    FetchKeeps(h, next, s);
    hide Ordered, EventsAfter;
  }

  lemma RoundGoesOn(h: seq<Event>, s: Stream, n: nat, t: Stream)
    requires MidRound(h, s, n, t) && |s.sent| + n < |h|
    ensures MidRound(h, s, n + 1, SendOne(t))
  {
    SendKeeps(h, t);
  }

  lemma WatchOneMore(i: Instance, s: Stream, steps: seq<Step>, step: Step)
    ensures Watch(i, s, steps + [step]) == Move(Watch(i, s, steps).0, Watch(i, s, steps).1, step)
  {
    assert (steps + [step])[..|steps|] == steps;
    hide Move;
  }

  lemma WatchFirst(i: Instance, s: Stream)
    ensures Watch(i, s, [DoFetch]) == (i, Fetch(s, i.history))
  {
    WatchOneMore(i, s, [], DoFetch);
    assert [] + [DoFetch] == [DoFetch];
  }

  lemma {:induction false} RoundSends(i: Instance, s: Stream, n: nat)
    requires Ordered(i.history, i.nextEvent) && InStep(i.history, s) && s.phase == AtHead
    requires |s.sent| + n <= |i.history|
    ensures var (j, t) := Watch(i, s, Round(n)); j == i && MidRound(i.history, s, n, t)
  {
    hide Ordered, InStep, MidRound, Fetch, SendOne, Next, Watch;
    if n == 0 {
      WatchFirst(i, s);
      RoundBegins(i.history, i.nextEvent, s);
    } else {
      RoundSends(i, s, n - 1);
      WatchOneMore(i, s, Round(n - 1), DoSend);
      RoundGoesOn(i.history, s, n - 1, Watch(i, s, Round(n - 1)).1);
    }
  }

  lemma RoundEnds(i: Instance, s: Stream, n: nat, t: Stream)
    requires Inv(i) && |s.sent| + n == |i.history| && MidRound(i.history, s, n, t)
    ensures var u := SendOne(t);
            u.sent == i.history && (u.complete <==> Closed(i)) && (!Closed(i) ==> u.phase == AtHead)
  {
    hide Inv;
    EndingsByPhase(i);
    assert t.sent == i.history && t.batch == [];
    if !Closed(i) { NoEndingNoClosing(i.history); }
    hide Closed, Endings;
  }

  /** A stream keeps up: from the head of its loop, one round brings the client the n events that it has
      not got yet, and ends the stream gracefully exactly if the execution is closed. */
  lemma RoundCatchesUp(i: Instance, s: Stream, n: nat)
    requires Inv(i) && InStep(i.history, s) && s.phase == AtHead && |s.sent| + n == |i.history|
    ensures var (j, t) := Watch(i, s, Round(n) + [DoSend]);
            && j == i && t.sent == i.history && (t.complete <==> Closed(i)) && (!Closed(i) ==> t.phase == AtHead)
  {
    hide Inv, Ordered, MidRound, InStep, SendOne, Fetch, Next, Round, Closed, Watch;
    HistoryOrdered(i);
    RoundSends(i, s, n);
    WatchOneMore(i, s, Round(n), DoSend);
    RoundEnds(i, s, n, Watch(i, s, Round(n)).1);
  }

  // ---------------------------------------------------------------- the loop itself

  /** One round of the loop: the events are sent one by one. */
  class Sender {
    var lastSentEventID: int
    var received: seq<Event>
    var closed: bool

    constructor ()
      ensures lastSentEventID == -1 && received == [] && !closed
    {
      lastSentEventID, received, closed := -1, [], false;
    }

    /** A round sends exactly the events after the cursor, in order, moves the cursor to the last
        of them, and closes the stream if and only if one of them is an ending. */
    method Round(history: seq<Event>)
      requires !closed
      modifies this
      ensures received == old(received) + EventsAfter(history, old(lastSentEventID))
      ensures lastSentEventID == (var e := EventsAfter(history, old(lastSentEventID));
                                  if e == [] then old(lastSentEventID) else e[|e| - 1].id)
      ensures closed <==> exists k :: 0 <= k < |EventsAfter(history, old(lastSentEventID))|
                                      && Closing(EventsAfter(history, old(lastSentEventID))[k].kind)
    {
      var events := EventsAfter(history, lastSentEventID);
      var terminalReached := false;
      var n := 0;
      while n < |events|
        invariant 0 <= n <= |events| && !closed
        invariant received == old(received) + events[..n]
        invariant lastSentEventID == if n == 0 then old(lastSentEventID) else events[n - 1].id
        invariant terminalReached <==> exists k :: 0 <= k < n && Closing(events[k].kind)
      {
        received := received + [events[n]];
        lastSentEventID := events[n].id;
        if Closing(events[n].kind) {
          terminalReached := true;
        }
        n := n + 1;
      }
      assert events[..n] == events;
      if terminalReached {
        closed := true;
      }
    }
  }
}
