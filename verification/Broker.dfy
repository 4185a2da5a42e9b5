/** Waking the task streams (usecase/broker.go and the loops of StreamTasks and
    StreamCompensationTasks in interface/grpc/task_handler.go). */
module Broker {
  import opened Domain

  /** A channel of capacity one that carries no data. */
  datatype Chan = Chan(token: bool, closed: bool)

  datatype Board = Board(queues: map<string, seq<nat>>, channels: seq<Chan>)

  function Listeners(b: Board, queue: string): seq<nat> {
    if queue in b.queues then b.queues[queue] else []
  }

  ghost predicate Indexed(b: Board) {
    forall q, c :: c in Listeners(b, q) ==> c < |b.channels|
  }

  ghost predicate Distinct(list: seq<nat>) {
    forall i, j :: 0 <= i < j < |list| ==> list[i] != list[j]
  }

  function Notified(b: Board, queue: string): Board {
    b.(channels := seq(|b.channels|, c requires 0 <= c < |b.channels| =>
                     if c in Listeners(b, queue) then b.channels[c].(token := true) else b.channels[c]))
  }

  function Subscribed(b: Board, queue: string): Board {
    Board(b.queues[queue := Listeners(b, queue) + [|b.channels|]], b.channels + [Chan(false, false)])
  }

  /** The list without the first occurrence of c. */
  function Without(list: seq<nat>, c: nat): seq<nat> {
    if list == [] then []
    else if list[0] == c then list[1..]
    else [list[0]] + Without(list[1..], c)
  }

  function Unsubscribed(b: Board, queue: string, c: nat): Board
    requires Indexed(b)
  {
    if c in Listeners(b, queue)
    then Board(b.queues[queue := Without(b.queues[queue], c)], b.channels[c := b.channels[c].(closed := true)])
    else b
  }

  lemma {:induction false} WithoutKeepsTheRest(list: seq<nat>, c: nat)
    requires Distinct(list)
    ensures Distinct(Without(list, c))
    ensures forall d :: d in Without(list, c) <==> d in list && d != c
  {
    if list != [] {
      assert list == [list[0]] + list[1..];
      assert list[0] !in list[1..];
      if list[0] != c {
        WithoutKeepsTheRest(list[1..], c);
        var rest := Without(list[1..], c);
        assert forall i :: 0 <= i < |rest| ==> rest[i] in rest;
      }
    }
  }

  lemma {:induction false} WithoutSplits(list: seq<nat>, c: nat, i: nat)
    requires i < |list| && list[i] == c && (forall k :: 0 <= k < i ==> list[k] != c)
    ensures Without(list, c) == list[..i] + list[i + 1..]
  {
    if i > 0 {
      WithoutSplits(list[1..], c, i - 1);
      assert [list[0]] + (list[1..][..i - 1] + list[1..][i..]) == list[..i] + list[i + 1..];
    } else {
      assert list[1..] == list[..0] + list[1..];
    }
  }

  // ---------------------------------------------------------------- streams and tasks

  /** Polling covers everything from one poll to the decision to wait. */
  datatype Phase = Polling | Waiting | Gone

  /** One stream; its channel has the same number. Of the two kinds of stream one polls the task
      table and the other the compensation table. */
  datatype Stream = Stream(queue: string, compensation: bool, phase: Phase)

  /** A committed, immediately eligible task; announced once its creator has called Notify. */
  datatype Ready = Ready(queue: string, compensation: bool, taken: bool, announced: bool)

  datatype System = System(board: Board, streams: seq<Stream>, tasks: seq<Ready>)

  datatype Step =
    | Open(queue: string, compensation: bool)
    | Poll(stream: nat, found: Option<nat>)
    | Wake(stream: nat)
    | Timer(stream: nat)
    | Leave(stream: nat)
    | Commit(queue: string, compensation: bool)
    | Announce(task: nat)
    | EarlyNotify(queue: string)

  predicate Waits(s: System, c: nat) {
    c < |s.streams| && s.streams[c].phase == Waiting
  }

  /** The poll of stream c may return task t. */
  predicate Available(s: System, c: nat, t: nat)
    requires c < |s.streams|
  {
    && t < |s.tasks| && !s.tasks[t].taken
    && s.tasks[t].queue == s.streams[c].queue && s.tasks[t].compensation == s.streams[c].compensation
  }

  predicate Enabled(s: System, step: Step) {
    match step
    case Poll(c, Some(t)) => c < |s.streams| && s.streams[c].phase == Polling && Available(s, c, t)
    case Poll(c, None) =>
      c < |s.streams| && s.streams[c].phase == Polling && forall t :: 0 <= t < |s.tasks| ==> !Available(s, c, t)
    case Wake(c) => Waits(s, c) && c < |s.board.channels| && s.board.channels[c].token
    case Timer(c) => Waits(s, c)
    case Leave(c) => c < |s.streams| && s.streams[c].phase != Gone
    case Announce(t) => t < |s.tasks|
    case _ => true
  }

  function SetPhase(s: System, c: nat, phase: Phase): System
    requires c < |s.streams|
  {
    s.(streams := s.streams[c := s.streams[c].(phase := phase)])
  }

  function Next(s: System, step: Step): System
    requires Indexed(s.board) && Enabled(s, step)
  {
    match step
    case Open(queue, compensation) =>
      s.(board := Subscribed(s.board, queue), streams := s.streams + [Stream(queue, compensation, Polling)])
    case Poll(_, Some(t)) => s.(tasks := s.tasks[t := s.tasks[t].(taken := true)])
    case Poll(c, None) => SetPhase(s, c, Waiting)
    case Wake(c) =>
      SetPhase(s, c, Polling)
      .(board := s.board.(channels := s.board.channels[c := s.board.channels[c].(token := false)]))
    case Timer(c) => SetPhase(s, c, Polling)
    case Leave(c) => SetPhase(s, c, Gone).(board := Unsubscribed(s.board, s.streams[c].queue, c))
    case Commit(queue, compensation) => s.(tasks := s.tasks + [Ready(queue, compensation, false, false)])
    case Announce(t) =>
      s.(board := Notified(s.board, s.tasks[t].queue), tasks := s.tasks[t := s.tasks[t].(announced := true)])
    case EarlyNotify(queue) => s.(board := Notified(s.board, queue))
  }

  /** The list of a queue names each of its open streams once, and nothing else. */
  ghost predicate ListOk(s: System, queue: string) {
    && Distinct(Listeners(s.board, queue))
    && (forall c: nat :: c in Listeners(s.board, queue) <==>
          c < |s.streams| && s.streams[c].queue == queue && s.streams[c].phase != Gone)
  }

  /** Each stream that is not gone is listed once, under its own queue, and exactly the channels of
      these streams are open. */
  ghost predicate Listed(s: System) {
    && |s.streams| == |s.board.channels|
    && (forall q {:trigger ListOk(s, q)} {:trigger Listeners(s.board, q)} :: ListOk(s, q))
    && (forall c :: 0 <= c < |s.streams| ==> (s.board.channels[c].closed <==> s.streams[c].phase == Gone))
  }

  /** A waiting stream for which an announced task is ready has a token in its channel. */
  ghost predicate NoneAsleep(s: System) {
    forall c: nat, t: nat :: Waits(s, c) && Available(s, c, t) && s.tasks[t].announced ==>
      c < |s.board.channels| && s.board.channels[c].token
  }

  lemma ListAfterOpen(s: System, queue: string, compensation: bool, q: string)
    requires Listed(s)
    ensures Indexed(s.board) && ListOk(Next(s, Open(queue, compensation)), q)
  {
    var list := Listeners(s.board, q);
    assert ListOk(s, q);
    if q == queue {
      AppendKeepsDistinct(list, |s.streams|);
    }
    assert Listeners(Next(s, Open(queue, compensation)).board, q)
           == if q == queue then list + [|s.streams|] else list;
    hide Distinct;
  }

  lemma AppendKeepsDistinct(list: seq<nat>, c: nat)
    requires Distinct(list) && c !in list
    ensures Distinct(list + [c])
  {
    assert forall i :: 0 <= i < |list| ==> list[i] in list;
  }

  lemma ListAfterLeave(s: System, c: nat, q: string)
    requires Listed(s) && Enabled(s, Leave(c))
    ensures Indexed(s.board) && ListOk(Next(s, Leave(c)), q)
  {
    assert ListOk(s, q) && ListOk(s, s.streams[c].queue);
    WithoutKeepsTheRest(Listeners(s.board, q), c);
    assert Listeners(Next(s, Leave(c)).board, q)
           == if q == s.streams[c].queue then Without(Listeners(s.board, q), c) else Listeners(s.board, q);
  }

  lemma ListedKeeps(s: System, step: Step)
    requires Listed(s) && Enabled(s, step)
    ensures Indexed(s.board) && Listed(Next(s, step))
  {
    var n := Next(s, step);
    forall q ensures ListOk(n, q) {
      match step
      case Open(queue, compensation) => ListAfterOpen(s, queue, compensation, q);
      case Leave(c) => ListAfterLeave(s, c, q);
      case _ =>
        assert ListOk(s, q);
        assert Listeners(n.board, q) == Listeners(s.board, q);
    }
    if step.Leave? { assert ListOk(s, s.streams[step.stream].queue); }
  }

  lemma NoneAsleepKeeps(s: System, step: Step)
    requires Listed(s) && NoneAsleep(s) && Enabled(s, step)
    ensures Indexed(s.board) && NoneAsleep(Next(s, step))
  {
    var n := Next(s, step);
    forall c: nat, t: nat | Waits(n, c) && Available(n, c, t) && n.tasks[t].announced
      ensures c < |n.board.channels| && n.board.channels[c].token
    {
      assert ListOk(s, n.streams[c].queue);
      assert c < |s.streams|;
      var before := Available(s, c, t);
    }
  }

  // ---------------------------------------------------------------- runs

  const EMPTY := System(Board(map[], []), [], [])

  /** The system after the steps, if each of them was possible in its turn. */
  ghost function After(steps: seq<Step>): Option<System> {
    if steps == [] then Some(EMPTY)
    else match After(steps[..|steps| - 1])
      case None => None
      case Some(s) =>
        var last := steps[|steps| - 1];
        if Indexed(s.board) && Enabled(s, last) then Some(Next(s, last)) else None
  }

  /** In every run: a stream that waits for its queue while an announced task of the queue is ready
      has a token to wake it, whoever subscribed or left meanwhile; and no Notify sends on a closed
      channel. */
  lemma {:induction false} NoLostWakeUp(steps: seq<Step>)
    requires After(steps).Some?
    ensures Listed(After(steps).value) && NoneAsleep(After(steps).value)
    ensures forall q, c :: c in Listeners(After(steps).value.board, q) ==>
              c < |After(steps).value.board.channels| && !After(steps).value.board.channels[c].closed
  {
    if steps == [] {
      assert forall q :: Listeners(EMPTY.board, q) == [];
    } else {
      NoLostWakeUp(steps[..|steps| - 1]);
      ListedKeeps(After(steps[..|steps| - 1]).value, steps[|steps| - 1]);
      NoneAsleepKeeps(After(steps[..|steps| - 1]).value, steps[|steps| - 1]);
    }
    assert forall q :: ListOk(After(steps).value, q);
  }

  /** The queue that a step notifies. */
  function NotifiedBy(s: System, step: Step): Option<string> {
    match step
    case Announce(t) => if t < |s.tasks| then Some(s.tasks[t].queue) else None
    case EarlyNotify(queue) => Some(queue)
    case _ => None
  }

  /** Exactly the open streams of the notified queue get a token, and exactly the stream that wakes up
      takes its own; no other channel changes, and none is opened or closed but by its own stream. */
  lemma TokensExactlyWhen(s: System, step: Step, c: nat)
    requires Listed(s) && Enabled(s, step) && c < |s.streams|
    ensures Indexed(s.board) && c < |Next(s, step).board.channels|
    ensures Next(s, step).board.channels[c].token <==>
            || (NotifiedBy(s, step) == Some(s.streams[c].queue) && s.streams[c].phase != Gone)
            || (s.board.channels[c].token && step != Wake(c))
    ensures Next(s, step).board.channels[c].closed <==> s.board.channels[c].closed || step == Leave(c)
  {
    assert ListOk(s, s.streams[c].queue);
    if step.Announce? { assert ListOk(s, s.tasks[step.task].queue); }
    if step.EarlyNotify? { assert ListOk(s, step.queue); }
    if step.Leave? { assert ListOk(s, s.streams[step.stream].queue); }
  }

  /** The stream waits without a token although the task is ready. */
  predicate Asleep(s: System, c: nat, t: nat) {
    Waits(s, c) && Available(s, c, t) && c < |s.board.channels| && !s.board.channels[c].token
  }

  /** A stream begins to sleep over a task exactly when the task is committed while the stream waits
      without a token. Calling Notify after the commit ends it; so does the poll after the timer. */
  lemma SleepsExactlyWhen(s: System, step: Step, c: nat, t: nat)
    requires Listed(s) && Enabled(s, step) && !Asleep(s, c, t)
    ensures Indexed(s.board)
    ensures Asleep(Next(s, step), c, t) <==>
            && step.Commit? && t == |s.tasks|
            && Waits(s, c) && !s.board.channels[c].token
            && s.streams[c].queue == step.queue && s.streams[c].compensation == step.compensation
  {
    if c < |s.streams| {
      assert ListOk(s, s.streams[c].queue);
      var before := Available(s, c, t);
    }
  }

  lemma SleepEnds(s: System, c: nat, t: nat)
    requires Listed(s) && Asleep(s, c, t)
    ensures Indexed(s.board)
    ensures !Asleep(Next(s, Announce(t)), c, t) && Enabled(Next(s, Announce(t)), Wake(c))
    ensures Enabled(s, Timer(c)) && !Enabled(Next(s, Timer(c)), Poll(c, None))
            && Enabled(Next(s, Timer(c)), Poll(c, Some(t)))
  {
    assert ListOk(s, s.streams[c].queue);
    assert Available(Next(s, Timer(c)), c, t);
  }

  lemma AfterStep(steps: seq<Step>, s: System, step: Step)
    requires After(steps) == Some(s) && Indexed(s.board) && Enabled(s, step)
    ensures After(steps + [step]) == Some(Next(s, step))
  {
    assert (steps + [step])[..|steps|] == steps;
  }

  /** startCompensation calls Notify inside its transaction. A stream may then use up the token
      before the commit, and sleep over the compensation task until its timer. */
  lemma EarlyNotifyIsLost(queue: string)
    ensures var steps := [Open(queue, true), Poll(0, None), EarlyNotify(queue), Wake(0), Poll(0, None),
                          Commit(queue, true)];
            After(steps).Some? && Asleep(After(steps).value, 0, 0)
  {
    var waiting := Stream(queue, true, Waiting);
    var board := Board(map[queue := [0]], [Chan(false, false)]);
    var s1 := System(board, [waiting.(phase := Polling)], []);
    var s2 := s1.(streams := [waiting]);
    var s3 := s2.(board := board.(channels := [Chan(true, false)]));
    var s4 := System(board, [waiting], [Ready(queue, true, false, false)]);
    assert Next(EMPTY, Open(queue, true)) == s1 by {
      var n := Next(EMPTY, Open(queue, true));
      assert n.board.queues[queue] == [0];
      assert n.board.queues == map[queue := [0]] && n.board.channels == [Chan(false, false)];
    }
    assert Next(s1, Poll(0, None)) == s2;
    assert Next(s2, EarlyNotify(queue)) == s3;
    assert Next(s3, Wake(0)) == s1;
    assert Next(s2, Commit(queue, true)) == s4;
    assert After([]) == Some(EMPTY);
    hide Next, After;
    var p1 := [] + [Open(queue, true)];
    var p2 := p1 + [Poll(0, None)];
    var p3 := p2 + [EarlyNotify(queue)];
    var p4 := p3 + [Wake(0)];
    var p5 := p4 + [Poll(0, None)];
    AfterStep([], EMPTY, Open(queue, true));
    AfterStep(p1, s1, Poll(0, None));
    AfterStep(p2, s2, EarlyNotify(queue));
    AfterStep(p3, s3, Wake(0));
    AfterStep(p4, s1, Poll(0, None));
    AfterStep(p5, s2, Commit(queue, true));
    assert p5 + [Commit(queue, true)]
           == [Open(queue, true), Poll(0, None), EarlyNotify(queue), Wake(0), Poll(0, None), Commit(queue, true)];
  }

  // ---------------------------------------------------------------- the broker

  class TaskBroker {
    var queues: map<string, seq<nat>>
    var channels: seq<Chan>

    function View(): Board
      reads this
    {
      Board(queues, channels)
    }

    constructor ()
      ensures View() == EMPTY.board
    {
      queues, channels := map[], [];
    }

    /** A send to a channel that already has a token takes the default branch. */
    method Notify(taskQueue: string)
      requires Indexed(View())
      requires forall c :: c in Listeners(View(), taskQueue) ==> !channels[c].closed
      modifies `channels
      ensures View() == Notified(old(View()), taskQueue)
      ensures queues == old(queues) && |channels| == |old(channels)|
      ensures forall c :: 0 <= c < |channels| ==>
                channels[c] == if taskQueue in queues && c in queues[taskQueue]
                               then old(channels)[c].(token := true) else old(channels)[c]
    {
      if taskQueue !in queues {
        assert channels == Notified(View(), taskQueue).channels;
        return;
      }
      var list := queues[taskQueue];
      var i := 0;
      while i < |list|
        invariant 0 <= i <= |list| && |channels| == |old(channels)|
        invariant forall c :: 0 <= c < |channels| ==>
                    channels[c] == if c in list[..i] then old(channels)[c].(token := true) else old(channels)[c]
      {
        assert list[i] in Listeners(old(View()), taskQueue);
        if !channels[list[i]].token {
          channels := channels[list[i] := channels[list[i]].(token := true)];
        }
        assert list[..i + 1] == list[..i] + [list[i]];
        i := i + 1;
      }
      assert list[..i] == list;
    }

    method Subscribe(taskQueue: string) returns (ch: nat)
      modifies this
      ensures View() == Subscribed(old(View()), taskQueue) && ch == |old(channels)|
    {
      ch := |channels|;
      channels := channels + [Chan(false, false)];
      queues := queues[taskQueue := (if taskQueue in queues then queues[taskQueue] else []) + [ch]];
    }

    /** The function that Subscribe returns; a second call finds nothing and closes nothing. */
    method Unsubscribe(taskQueue: string, ch: nat)
      requires Indexed(View())
      modifies this
      ensures View() == Unsubscribed(old(View()), taskQueue, ch)
    {
      var list := if taskQueue in queues then queues[taskQueue] else [];
      var i := 0;
      while i < |list|
        invariant 0 <= i <= |list|
        invariant forall k :: 0 <= k < i ==> list[k] != ch
        invariant View() == old(View())
      {
        if list[i] == ch {
          WithoutSplits(list, ch, i);
          assert ch in Listeners(View(), taskQueue);
          queues := queues[taskQueue := list[..i] + list[i + 1..]];
          channels := channels[ch := channels[ch].(closed := true)];
          return;
        }
        i := i + 1;
      }
    }
  }
}
