/** In which order the waits for one signal receive what was sent, and which of them can still be
    reached (usecase/signal.go). */
module SignalOrder {
  import opened Domain
  import opened Signals

  /** Within each key, signals are received in the order in which they were sent. */
  ghost predicate ReceivedInOrder(s: Store) {
    forall a, b :: 0 <= a < b < |s.received| && s.received[a] < |s.sent| && s.received[b] < |s.sent|
                   && s.sent[s.received[a]].key == s.sent[s.received[b]].key ==>
      s.received[a] < s.received[b]
  }

  // ---------------------------------------------------------------- overtaking

  /** Wait w is blocked and has not yet read what is in its channel. */
  predicate Full(s: Store, w: nat, key: Key) {
    w < |s.calls| && s.calls[w].phase == Blocked && s.calls[w].key == key && s.calls[w].buffer.Some?
  }

  /** The step is a Wait for a key while an earlier Wait for it has not read its channel. */
  predicate Overtakes(s: Store, step: Step) {
    step.Wait? && exists w :: 0 <= w < |s.calls| && Full(s, w, step.key)
  }

  ghost predicate NoOvertaking(s: Store, steps: seq<Step>) {
    steps == [] ||
    (var before, last := steps[..|steps| - 1], steps[|steps| - 1];
     NoOvertaking(s, before) && (Follow(s, before).Some? ==> !Overtakes(Follow(s, before).value, last)))
  }

  /** At most one Wait of a key has something to read, and none while another is registered. */
  ghost predicate OneFull(s: Store) {
    && (forall v: nat, w: nat, key {:trigger Full(s, v, key), Full(s, w, key)} ::
          Full(s, v, key) && Full(s, w, key) ==> v == w)
    && (forall w: nat, key :: Full(s, w, key) ==> key !in s.waiters)
  }

  /** Everything received for the key is older than n. */
  ghost predicate NewerThanReceived(s: Store, key: Key, n: nat) {
    forall r :: r in s.received && r < |s.sent| && s.sent[r].key == key ==> r < n
  }

  /** What a blocked Wait has in its channel is newer than what its key received, and what is
      pending is newer than both. */
  ghost predicate Aged(s: Store) {
    && (forall k :: k in s.pending ==> NewerThanReceived(s, k, s.pending[k]))
    && (forall w: nat, k :: Full(s, w, k) ==>
          && NewerThanReceived(s, k, s.calls[w].buffer.value)
          && (k in s.pending ==> s.calls[w].buffer.value < s.pending[k]))
  }

  ghost predicate Orderly(s: Store) {
    ReceivedInOrder(s) && OneFull(s) && Aged(s)
  }

  lemma AppendInOrder(s: Store, t: Store, n: nat)
    requires ReceivedInOrder(s) && (forall r :: r in s.received ==> r < |s.sent|)
    requires n < |s.sent| && NewerThanReceived(s, s.sent[n].key, n)
    requires t.sent == s.sent && t.received == s.received + [n]
    ensures ReceivedInOrder(t)
  {
    forall a, b | 0 <= a < b < |t.received| && t.received[a] < |t.sent| && t.received[b] < |t.sent|
                  && t.sent[t.received[a]].key == t.sent[t.received[b]].key
      ensures t.received[a] < t.received[b]
    {
      assert s.received[a] in s.received;
    }
  }

  lemma ReceivedInOrderKeeps(s: Store, step: Step)
    requires Inv(s) && Orderly(s) && Enabled(s, step)
    ensures ReceivedInOrder(Next(s, step))
  {
    hide Conserved, OneFull;
    var t := Next(s, step);
    if step.Receive? {
      hide ReceivedInOrder, NewerThanReceived;
      var n := s.calls[step.call].buffer.value;
      assert InChannel(s, n, step.call) && Full(s, step.call, s.calls[step.call].key);
      AppendInOrder(s, t, n);
    } else if step.Wait? && step.key in s.pending {
      hide ReceivedInOrder, NewerThanReceived;
      AppendInOrder(s, t, s.pending[step.key]);
    } else {
      assert forall a :: 0 <= a < |s.received| ==> s.received[a] in s.received;
      assert t.received == s.received && forall r :: r in s.received ==> t.sent[r] == s.sent[r];
    }
  }

  /** A Wait has something to read because it had it before, or because this Send found it. */
  lemma FullBefore(s: Store, step: Step, w: nat, key: Key)
    requires Inv(s) && Enabled(s, step) && Full(Next(s, step), w, key)
    ensures Full(s, w, key) || (step.Send? && step.key == key && key in s.waiters && w == s.waiters[key])
    ensures Full(s, w, key) ==> Next(s, step).calls[w].buffer == s.calls[w].buffer
    ensures !Full(s, w, key) ==> Next(s, step).calls[w].buffer == Some(|s.sent|) && key !in Next(s, step).waiters
  {
    hide Conserved, Sound;
  }

  lemma OneFullKeeps(s: Store, step: Step)
    requires Inv(s) && OneFull(s) && Enabled(s, step) && !Overtakes(s, step)
    ensures OneFull(Next(s, step))
  {
    var t := Next(s, step);
    forall v: nat, w: nat, key | Full(t, v, key) && Full(t, w, key) ensures v == w {
      FullBefore(s, step, v, key);
      FullBefore(s, step, w, key);
    }
    forall w: nat, key | Full(t, w, key) ensures key !in t.waiters {
      FullBefore(s, step, w, key);
      assert Full(s, w, key) && step.Wait? ==> step.key != key;
    }
  }

  lemma PendingAgedKeeps(s: Store, step: Step)
    requires Inv(s) && Orderly(s) && Enabled(s, step)
    ensures forall k :: k in Next(s, step).pending ==> NewerThanReceived(Next(s, step), k, Next(s, step).pending[k])
  {
    hide Conserved, OneFull, ReceivedInOrder;
    var t := Next(s, step);
    assert forall r :: r in s.received ==> t.sent[r] == s.sent[r];
    if step.Receive? {
      assert InChannel(s, s.calls[step.call].buffer.value, step.call);
      assert Full(s, step.call, s.calls[step.call].key);
    }
    forall k | k in t.pending ensures NewerThanReceived(t, k, t.pending[k]) {
      if !step.Send? || k != step.key {
        assert NewerThanReceived(s, k, t.pending[k]);
      }
    }
  }

  /** Receiving n keeps newer what was newer than n and than everything before. */
  lemma StaysNewer(s: Store, t: Store, key: Key, m: nat)
    requires NewerThanReceived(s, key, m) && |t.sent| >= |s.sent| && t.sent[..|s.sent|] == s.sent
    requires forall r :: r in s.received ==> r < |s.sent|
    requires forall r :: r in t.received ==> r in s.received || (r < |s.sent| && (s.sent[r].key == key ==> r < m))
    ensures NewerThanReceived(t, key, m)
  {
    assert forall r :: 0 <= r < |s.sent| ==> t.sent[r] == t.sent[..|s.sent|][r];
  }

  lemma ChannelNewerThanReceived(s: Store, step: Step, w: nat, key: Key)
    requires Inv(s) && Orderly(s) && Enabled(s, step) && !Overtakes(s, step) && Full(Next(s, step), w, key)
    ensures NewerThanReceived(Next(s, step), key, Next(s, step).calls[w].buffer.value)
  {
    hide Conserved, ReceivedInOrder;
    var t := Next(s, step);
    FullBefore(s, step, w, key);
    if Full(s, w, key) {
      var m := s.calls[w].buffer.value;
      assert InChannel(s, m, w);
      if step.Receive? {
        assert Full(s, step.call, s.calls[step.call].key);
        assert InChannel(s, s.calls[step.call].buffer.value, step.call);
      }
      hide NewerThanReceived, OneFull;
      assert t.sent[..|s.sent|] == s.sent;
      StaysNewer(s, t, key, m);
    }
  }

  lemma ChannelOlderThanPending(s: Store, step: Step, w: nat, key: Key)
    requires Inv(s) && Orderly(s) && Enabled(s, step) && Full(Next(s, step), w, key)
    ensures key in Next(s, step).pending ==> Next(s, step).calls[w].buffer.value < Next(s, step).pending[key]
  {
    hide Conserved, NewerThanReceived, ReceivedInOrder, OneFull;
    FullBefore(s, step, w, key);
    if Full(s, w, key) {
      assert InChannel(s, s.calls[w].buffer.value, w);
    }
  }

  lemma OrderlyKeeps(s: Store, step: Step)
    requires Inv(s) && Orderly(s) && Enabled(s, step) && !Overtakes(s, step)
    ensures Orderly(Next(s, step))
  {
    hide Inv, Next, NewerThanReceived, Overtakes, ReceivedInOrder, OneFull;
    assert Indexed(s) by { IndexedByInv(s); }
    var t := Next(s, step);
    ReceivedInOrderKeeps(s, step);
    OneFullKeeps(s, step);
    PendingAgedKeeps(s, step);
    forall w: nat, k | Full(t, w, k)
      ensures NewerThanReceived(t, k, t.calls[w].buffer.value)
      ensures k in t.pending ==> t.calls[w].buffer.value < t.pending[k]
    {
      ChannelNewerThanReceived(s, step, w, k);
      ChannelOlderThanPending(s, step, w, k);
    }
  }

  lemma IndexedByInv(s: Store)
    requires Inv(s)
    ensures Indexed(s)
  {
  }

  lemma {:induction false} OrderlyAlongTheWay(s: Store, steps: seq<Step>)
    requires Inv(s) && Orderly(s) && Follow(s, steps).Some? && NoOvertaking(s, steps)
    ensures Inv(Follow(s, steps).value) && Orderly(Follow(s, steps).value)
  {
    hide Inv, Orderly, Next, Overtakes;
    FollowKeeps(s, steps);
    if steps != [] {
      var before := steps[..|steps| - 1];
      OrderlyAlongTheWay(s, before);
      OrderlyKeeps(Follow(s, before).value, steps[|steps| - 1]);
    }
  }

  lemma EmptyIsOrderly()
    ensures Inv(EMPTY) && Orderly(EMPTY)
  {
  }

  /** In a run in which no Wait overtakes another, each key receives a subsequence, in order, of what
      was sent to it. Waits may overlap otherwise. */
  lemma NoOvertakingReceivesInOrder(steps: seq<Step>)
    requires After(steps).Some? && NoOvertaking(EMPTY, steps)
    ensures ReceivedInOrder(After(steps).value)
  {
    EmptyIsOrderly();
    OrderlyAlongTheWay(EMPTY, steps);
  }

  /** How an overtaking Wait can end: it receives a later signal, and then the Wait it overtook
      receives the earlier one. */
  function Overtaking(s: Store, w: nat, key: Key, payload: Bytes): seq<Step> {
    if key in s.pending then [Receive(w)] else [Send(key, payload), Receive(|s.calls|), Receive(w)]
  }

  /** After the overtaking Wait: either it has received what was pending, or it is registered. */
  lemma OvertakingReorders(s: Store, w: nat, key: Key, payload: Bytes)
    requires Inv(s) && Orderly(s) && Full(s, w, key)
    ensures var rest := Overtaking(s, w, key, payload);
            && NoOvertaking(Enter(s, key), rest)
            && Follow(Enter(s, key), rest).Some? && !ReceivedInOrder(Follow(Enter(s, key), rest).value)
  {
    var n := s.calls[w].buffer.value;
    assert InChannel(s, n, w);
    var t := Enter(s, key);
    if key in s.pending {
      ReadsLast(s, t, w, n, s.pending[key]);
      OneStep(t, Receive(w));
    } else {
      var second := |s.calls|;
      var u := SendTo(t, key, payload).0;
      var v := Next(u, Receive(second));
      assert v.received == s.received + [|s.sent|];
      ReadsLast(s, v, w, n, |s.sent|);
      ThreeSteps(t, Send(key, payload), Receive(second), Receive(w));
    }
  }

  /** The overtaken Wait reads n after a later signal m of its key was received. */
  lemma ReadsLast(s: Store, t: Store, w: nat, n: nat, m: nat)
    requires n < m < |t.sent| && t.sent[n].key == t.sent[m].key
    requires t.received == s.received + [m]
    requires w < |t.calls| && t.calls[w].phase == Blocked && t.calls[w].buffer == Some(n) && Indexed(t)
    ensures Enabled(t, Receive(w)) && !ReceivedInOrder(Next(t, Receive(w)))
  {
    var u := Next(t, Receive(w));
    assert u.received[|s.received|] == m && u.received[|s.received| + 1] == n;
  }

  lemma OneStep(s: Store, step: Step)
    requires !step.Wait? && Indexed(s) && Enabled(s, step)
    ensures NoOvertaking(s, [step]) && Follow(s, [step]) == Some(Next(s, step))
  {
    hide Next;
    assert [step][..0] == [];
    assert Follow(s, []) == Some(s);
  }

  lemma ThreeSteps(s: Store, a: Step, b: Step, c: Step)
    requires !a.Wait? && !b.Wait? && !c.Wait?
    requires Indexed(s) && Enabled(s, a)
    requires var t := Next(s, a); Indexed(t) && Enabled(t, b)
    requires var t := Next(s, a); var u := Next(t, b); Indexed(u) && Enabled(u, c)
    ensures NoOvertaking(s, [a, b, c]) && Follow(s, [a, b, c]) == Some(Next(Next(Next(s, a), b), c))
  {
    hide Next;
    OneStep(s, a);
    assert [a, b][..1] == [a] && [a, b, c][..2] == [a, b];
    FollowStep(s, [a], Next(s, a), b);
    assert [a] + [b] == [a, b];
    FollowStep(s, [a, b], Next(Next(s, a), b), c);
    assert [a, b] + [c] == [a, b, c];
    assert NoOvertaking(s, [a, b]);
  }

  /** The order of a key can be lost after a Wait, without any further overtaking, if and only if that
      Wait overtakes another. */
  lemma ReordersExactlyWhen(s: Store, key: Key)
    requires Inv(s) && Orderly(s)
    ensures Overtakes(s, Wait(key)) <==>
            exists rest :: NoOvertaking(Enter(s, key), rest) && Follow(Enter(s, key), rest).Some?
                           && !ReceivedInOrder(Follow(Enter(s, key), rest).value)
  {
    if Overtakes(s, Wait(key)) {
      var w: nat :| w < |s.calls| && Full(s, w, key);
      OvertakingReorders(s, w, key, []);
    } else {
      InvKeeps(s, Wait(key));
      OrderlyKeeps(s, Wait(key));
      hide Inv, Enter, Overtakes, Follow, NoOvertaking;
      forall rest | NoOvertaking(Enter(s, key), rest) && Follow(Enter(s, key), rest).Some?
        ensures ReceivedInOrder(Follow(Enter(s, key), rest).value)
      {
        OrderlyAlongTheWay(Enter(s, key), rest);
      }
    }
  }

  /** With overlapping waits the order can be lost: the second Wait overtakes the first. */
  lemma OverlappingWaitsReorder(key: Key, a: Bytes, b: Bytes)
    ensures var steps := [Wait(key), Send(key, a), Send(key, b), Wait(key), Receive(0)];
            After(steps).Some? && After(steps).value.received == [1, 0]
            && !ReceivedInOrder(After(steps).value)
  {
    var steps := [Wait(key), Send(key, a), Send(key, b), Wait(key), Receive(0)];
    var one := Call(key, None, false, Blocked);
    var s1 := EMPTY.(waiters := map[key := 0], calls := [one]);
    var s2 := s1.(waiters := map[], calls := [one.(buffer := Some(0))], sent := [Signal(key, a)]);
    var s3 := s2.(pending := map[key := 1], sent := [Signal(key, a), Signal(key, b)]);
    var s4 := s3.(pending := map[], received := [1]);
    var s5 := s4.(received := [1, 0], calls := [one.(phase := Returned)]);
    assert Next(EMPTY, Wait(key)) == s1;
    assert Next(s1, Send(key, a)) == s2 by { assert Next(s1, Send(key, a)).waiters == map[]; }
    assert Next(s2, Send(key, b)) == s3;
    assert Next(s3, Wait(key)) == s4 by { assert Next(s3, Wait(key)).pending == map[]; }
    assert Next(s4, Receive(0)) == s5;
    assert Follow(EMPTY, []) == Some(EMPTY);
    hide Next, Follow;
    var p1 := [] + [Wait(key)];
    var p2 := p1 + [Send(key, a)];
    var p3 := p2 + [Send(key, b)];
    var p4 := p3 + [Wait(key)];
    FollowStep(EMPTY, [], EMPTY, Wait(key));
    FollowStep(EMPTY, p1, s1, Send(key, a));
    FollowStep(EMPTY, p2, s2, Send(key, b));
    FollowStep(EMPTY, p3, s3, Wait(key));
    FollowStep(EMPTY, p4, s4, Receive(0));
    assert p4 + [Receive(0)] == steps;
    assert s5.sent[s5.received[0]].key == s5.sent[s5.received[1]].key;
  }

  // ---------------------------------------------------------------- one Wait per key

  predicate Outstanding(s: Store, w: nat) {
    w < |s.calls| && s.calls[w].phase != Returned
  }

  /** No Wait of the key is under way. */
  predicate Free(s: Store, key: Key) {
    forall w :: 0 <= w < |s.calls| && s.calls[w].key == key ==> !Outstanding(s, w)
  }

  /** In the whole run a Wait starts only when no other Wait for its key is under way. */
  ghost predicate OneWaitPerKey(steps: seq<Step>) {
    steps == [] ||
    (var before, last := steps[..|steps| - 1], steps[|steps| - 1];
     OneWaitPerKey(before) && (last.Wait? && After(before).Some? ==> Free(After(before).value, last.key)))
  }

  /** The Wait can still be woken: Send or Drain finds it, or its channel has something to say. */
  predicate Deliverable(s: Store, w: nat)
    requires w < |s.calls|
  {
    Registered(s, w) || s.calls[w].buffer.Some? || s.calls[w].closed
  }

  ghost predicate Solo(s: Store) {
    forall v: nat, w: nat {:trigger Outstanding(s, v), Outstanding(s, w)} ::
      Outstanding(s, v) && Outstanding(s, w) && s.calls[v].key == s.calls[w].key ==> v == w
  }

  /** A blocked Wait can be woken. */
  ghost predicate NoneStranded(s: Store) {
    forall w :: 0 <= w < |s.calls| && s.calls[w].phase == Blocked ==> Deliverable(s, w)
  }

  lemma SoloKeeps(s: Store, step: Step)
    requires Inv(s) && Solo(s) && Enabled(s, step)
    requires step.Wait? ==> Free(s, step.key)
    ensures Solo(Next(s, step))
  {
    hide Conserved, Sound;
    var t := Next(s, step);
    forall v: nat, w: nat | Outstanding(t, v) && Outstanding(t, w) && t.calls[v].key == t.calls[w].key
      ensures v == w
    {
      assert (v < |s.calls| ==> Outstanding(s, v)) && (w < |s.calls| ==> Outstanding(s, w));
    }
  }

  lemma NoneStrandedKeeps(s: Store, step: Step)
    requires Inv(s) && Solo(s) && NoneStranded(s) && Enabled(s, step)
    requires step.Wait? ==> Free(s, step.key)
    ensures NoneStranded(Next(s, step))
  {
    hide Conserved, Sound;
    var t := Next(s, step);
    forall w: nat | w < |t.calls| && t.calls[w].phase == Blocked ensures Deliverable(t, w) {
      if w < |s.calls| {
        assert Deliverable(s, w) && Outstanding(s, w);
      }
      if step.CleanUp? { assert Outstanding(s, step.call); }
    }
  }

  lemma FreeIsNotOvertaken(s: Store, step: Step)
    requires step.Wait? ==> Free(s, step.key)
    ensures !Overtakes(s, step)
  {
    assert forall w: nat :: Full(s, w, if step.Wait? then step.key else Key("", "")) ==> Outstanding(s, w);
  }

  /** With one Wait per key at a time, signals are received in order and no blocked Wait is out of the
      reach of the next Send or Drain. */
  lemma {:induction false} OneWaitReceivesInOrder(steps: seq<Step>)
    requires After(steps).Some? && OneWaitPerKey(steps)
    ensures Inv(After(steps).value) && ReceivedInOrder(After(steps).value)
    ensures Solo(After(steps).value) && NoneStranded(After(steps).value)
    ensures NoOvertaking(EMPTY, steps)
  {
    hide Inv, Next, Overtakes, Free, Solo, NoneStranded, ReceivedInOrder;
    assert Inv(EMPTY) && Solo(EMPTY) && NoneStranded(EMPTY) by { EmptyIsSolo(); }
    FollowKeeps(EMPTY, steps);
    if steps != [] {
      var before, last := steps[..|steps| - 1], steps[|steps| - 1];
      OneWaitReceivesInOrder(before);
      SoloKeeps(After(before).value, last);
      NoneStrandedKeeps(After(before).value, last);
      FreeIsNotOvertaken(After(before).value, last);
    }
    NoOvertakingReceivesInOrder(steps);
  }

  lemma EmptyIsSolo()
    ensures Inv(EMPTY) && Solo(EMPTY) && NoneStranded(EMPTY)
  {
  }

  // ---------------------------------------------------------------- waits out of reach

  /** A second Wait puts the first one out of reach. */
  lemma SecondWaitStrandsTheFirst(key: Key)
    ensures var steps := [Wait(key), Wait(key)];
            && After(steps).Some? && |After(steps).value.calls| == 2
            && After(steps).value.calls[0].phase == Blocked && !Deliverable(After(steps).value, 0)
  {
    var call := Call(key, None, false, Blocked);
    var s := EMPTY.(waiters := map[key := 0], calls := [call]);
    var t := EMPTY.(waiters := map[key := 1], calls := [call, call]);
    assert Next(EMPTY, Wait(key)) == s;
    assert Next(s, Wait(key)) == t;
    assert Follow(EMPTY, []) == Some(EMPTY);
    hide Follow, Next;
    FollowStep(EMPTY, [], EMPTY, Wait(key));
    FollowStep(EMPTY, [] + [Wait(key)], s, Wait(key));
    assert ([] + [Wait(key)]) + [Wait(key)] == [Wait(key), Wait(key)];
  }

  /** A step puts a blocked Wait out of reach exactly when that Wait is the registered one and the
      step is another Wait for its key, or the clean-up of another Wait for its key, which deletes
      whatever registration it finds. */
  lemma StrandsExactlyWhen(s: Store, step: Step, w: nat)
    requires Inv(s) && Enabled(s, step)
    requires w < |s.calls| && s.calls[w].phase == Blocked && Deliverable(s, w)
    ensures var t := Next(s, step);
            t.calls[w].phase == Blocked && !Deliverable(t, w)
            <==>
            Registered(s, w)
            && ((step.Wait? && step.key == s.calls[w].key)
                || (step.CleanUp? && step.call != w && s.calls[step.call].key == s.calls[w].key))
  {
    hide Conserved, Sound;
  }

  /** A stranded Wait never gets a signal: it only gives up, or stays as it is. */
  lemma StrandedForGood(s: Store, step: Step, w: nat)
    requires Inv(s) && Enabled(s, step)
    requires w < |s.calls| && s.calls[w].phase == Blocked && !Deliverable(s, w)
    ensures var t := Next(s, step);
            && !Deliverable(t, w)
            && t.calls[w] == if step == GiveUp(w) then s.calls[w].(phase := Leaving) else s.calls[w]
  {
    hide Conserved, Sound;
  }
}
