/** Delivery of signals inside the server (usecase/signal.go): the interleaved critical sections of
    Send, Wait and Drain over channels of capacity one. A message is named by the number of its
    Send call, so that equal payloads can be told apart. */
module Signals {
  import opened Domain

  datatype Key = Key(execution: string, name: string)
  datatype Signal = Signal(key: Key, payload: Bytes)

  /** A Wait that registered: Blocked in its select, Leaving between a timeout or cancellation and
      its clean-up section, or Returned. */
  datatype Phase = Blocked | Leaving | Returned

  /** Such a Wait call with the channel it created. */
  datatype Call = Call(key: Key, buffer: Option<nat>, closed: bool, phase: Phase)

  /** waiters and pending are the two maps of the store, calls the waits that registered. The rest
      records what happened: the n-th signal sent, and what was received, overwritten or drained. */
  datatype Store = Store(
    waiters: map<Key, nat>,
    pending: map<Key, nat>,
    calls: seq<Call>,
    sent: seq<Signal>,
    received: seq<nat>,
    overwritten: set<nat>,
    drained: set<nat>)

  const EMPTY := Store(map[], map[], [], [], [], {}, {})

  datatype Step =
    | Send(key: Key, payload: Bytes)
    | Wait(key: Key)
    | Receive(call: nat)
    | SeeClosed(call: nat)
    | GiveUp(call: nat)
    | CleanUp(call: nat)
    | Drain(execution: string)

  /** The registered waiters exist. */
  predicate Indexed(s: Store) {
    forall k :: k in s.waiters ==> s.waiters[k] < |s.calls|
  }

  predicate Enabled(s: Store, step: Step) {
    match step
    case Receive(w) => w < |s.calls| && s.calls[w].phase == Blocked && s.calls[w].buffer.Some?
    case SeeClosed(w) =>
      w < |s.calls| && s.calls[w].phase == Blocked && s.calls[w].buffer.None? && s.calls[w].closed
    case GiveUp(w) => w < |s.calls| && s.calls[w].phase == Blocked
    case CleanUp(w) => w < |s.calls| && s.calls[w].phase == Leaving
    case _ => true
  }

  // ---------------------------------------------------------------- the critical sections

  function SetCall(s: Store, w: nat, c: Call): Store
    requires w < |s.calls|
  {
    s.(calls := s.calls[w := c])
  }

  /** The select of Send takes its default branch. */
  predicate ChannelFull(s: Store, key: Key)
    requires Indexed(s)
  {
    key in s.waiters && s.calls[s.waiters[key]].buffer.Some?
  }

  function Keep(s: Store, key: Key, message: nat): Store {
    s.(pending := s.pending[key := message],
       overwritten := s.overwritten + if key in s.pending then {s.pending[key]} else {})
  }

  /** Send; the flag says that a live waiter was notified. */
  function SendTo(s: Store, key: Key, payload: Bytes): (Store, bool)
    requires Indexed(s)
  {
    var message := |s.sent|;
    var t := s.(sent := s.sent + [Signal(key, payload)]);
    if key in s.waiters && !ChannelFull(s, key) then
      var w := s.waiters[key];
      (SetCall(t, w, t.calls[w].(buffer := Some(message))).(waiters := t.waiters - {key}), true)
    else (Keep(t, key, message), false)
  }

  /** The first critical section of Wait. */
  function Enter(s: Store, key: Key): Store {
    if key in s.pending
    then s.(received := s.received + [s.pending[key]], pending := s.pending - {key})
    else s.(calls := s.calls + [Call(key, None, false, Blocked)], waiters := s.waiters[key := |s.calls|])
  }

  predicate Closes(s: Store, execution: string, w: nat) {
    exists k :: k in s.waiters && k.execution == execution && s.waiters[k] == w
  }

  function DrainAll(s: Store, execution: string): Store {
    s.(pending := map k | k in s.pending && k.execution != execution :: s.pending[k],
       drained := s.drained + set k | k in s.pending && k.execution == execution :: s.pending[k],
       waiters := map k | k in s.waiters && k.execution != execution :: s.waiters[k],
       calls := seq(|s.calls|, w requires 0 <= w < |s.calls| =>
                  if Closes(s, execution, w) then s.calls[w].(closed := true) else s.calls[w]))
  }

  function Next(s: Store, step: Step): Store
    requires Indexed(s) && Enabled(s, step)
  {
    match step
    case Send(key, payload) => SendTo(s, key, payload).0
    case Wait(key) => Enter(s, key)
    case Receive(w) =>
      SetCall(s, w, s.calls[w].(buffer := None, phase := Returned))
      .(received := s.received + [s.calls[w].buffer.value])
    case SeeClosed(w) => SetCall(s, w, s.calls[w].(phase := Returned))
    case GiveUp(w) => SetCall(s, w, s.calls[w].(phase := Leaving))
    case CleanUp(w) =>
      SetCall(s, w, s.calls[w].(phase := Returned)).(waiters := s.waiters - {s.calls[w].key})
    case Drain(execution) => DrainAll(s, execution)
  }

  // ---------------------------------------------------------------- channel safety

  predicate Registered(s: Store, w: nat) {
    w < |s.calls| && s.calls[w].key in s.waiters && s.waiters[s.calls[w].key] == w
  }

  /** No key is in both maps; a registered waiter is registered under its own key only, and its
      channel is open and empty. */
  ghost predicate Safe(s: Store) {
    && s.waiters.Keys !! s.pending.Keys
    && (forall k :: k in s.waiters ==>
          && s.waiters[k] < |s.calls|
          && s.calls[s.waiters[k]].key == k
          && s.calls[s.waiters[k]].buffer.None?
          && !s.calls[s.waiters[k]].closed
          && s.calls[s.waiters[k]].phase != Returned)
    && (forall w :: 0 <= w < |s.calls| && s.calls[w].closed ==> s.calls[w].buffer.None?)
  }

  /** Where message n may be. */
  predicate Pending(s: Store, n: nat) {
    n < |s.sent| && s.sent[n].key in s.pending && s.pending[s.sent[n].key] == n
  }

  predicate InChannel(s: Store, n: nat, w: nat) {
    w < |s.calls| && s.calls[w].buffer == Some(n)
  }

  predicate Carried(s: Store, n: nat) {
    exists w {:trigger InChannel(s, n, w)} :: 0 <= w < |s.calls| && InChannel(s, n, w)
  }

  /** In the channel of a Wait that can still read it, or of one that never will. */
  predicate Unread(s: Store, n: nat) {
    exists w {:trigger InChannel(s, n, w)} :: 0 <= w < |s.calls| && InChannel(s, n, w) && s.calls[w].phase == Blocked
  }

  predicate Abandoned(s: Store, n: nat) {
    exists w {:trigger InChannel(s, n, w)} :: 0 <= w < |s.calls| && InChannel(s, n, w) && s.calls[w].phase != Blocked
  }

  function Count(b: bool): nat {
    if b then 1 else 0
  }

  function Places(s: Store, n: nat): nat {
    Count(n in s.received) + Count(Pending(s, n)) + Count(Carried(s, n))
    + Count(n in s.overwritten) + Count(n in s.drained)
  }

  /** The same with the channels told apart. */
  function Whereabouts(s: Store, n: nat): nat {
    Count(n in s.received) + Count(Pending(s, n)) + Count(Unread(s, n)) + Count(Abandoned(s, n))
    + Count(n in s.overwritten) + Count(n in s.drained)
  }

  /** Every message sent is in exactly one place, and in that place once. */
  ghost predicate Conserved(s: Store) {
    && (forall n :: 0 <= n < |s.sent| ==> Places(s, n) == 1)
    && (forall n: nat, v: nat, w: nat :: InChannel(s, n, v) && InChannel(s, n, w) ==> v == w)
    && (forall a, b :: 0 <= a < b < |s.received| ==> s.received[a] != s.received[b])
  }

  /** Every place holds messages that were sent, under the right key. */
  ghost predicate Sound(s: Store) {
    && (forall k :: k in s.pending ==> s.pending[k] < |s.sent| && s.sent[s.pending[k]].key == k)
    && (forall n: nat, w: nat :: InChannel(s, n, w) ==> n < |s.sent| && s.sent[n].key == s.calls[w].key)
    && (forall n :: n in s.received || n in s.overwritten || n in s.drained ==> n < |s.sent|)
  }

  ghost predicate Inv(s: Store) {
    Safe(s) && Sound(s) && Conserved(s)
  }

  lemma SafeAfterDrain(s: Store, execution: string)
    requires Safe(s)
    ensures Safe(DrainAll(s, execution))
  {
    var t := DrainAll(s, execution);
    forall k | k in t.waiters ensures !Closes(s, execution, s.waiters[k]) {}
  }

  lemma SafeAfterSend(s: Store, key: Key, payload: Bytes)
    requires Safe(s)
    ensures Safe(SendTo(s, key, payload).0)
  {
  }

  lemma SafeKeeps(s: Store, step: Step)
    requires Safe(s) && Enabled(s, step)
    ensures Safe(Next(s, step))
  {
    hide DrainAll, SendTo;
    match step
    case Send(key, payload) => SafeAfterSend(s, key, payload);
    case Drain(execution) => SafeAfterDrain(s, execution);
    case _ =>
  }

  /** A channel holds what it held before, or the message of this very Send. */
  lemma ChannelKeeps(s: Store, step: Step, n: nat, w: nat)
    requires Inv(s) && Enabled(s, step) && InChannel(Next(s, step), n, w)
    ensures w < |Next(s, step).calls|
    ensures InChannel(s, n, w) || (step.Send? && n == |s.sent| && step.key in s.waiters && w == s.waiters[step.key])
    ensures w < |s.calls| && Next(s, step).calls[w].key == s.calls[w].key
  {
  }

  lemma SoundKeeps(s: Store, step: Step)
    requires Inv(s) && Enabled(s, step)
    ensures Sound(Next(s, step))
  {
    var t := Next(s, step);
    forall n: nat, w: nat | InChannel(t, n, w) ensures n < |t.sent| && t.sent[n].key == t.calls[w].key {
      ChannelKeeps(s, step, n, w);
    }
    if step.Receive? {
      assert InChannel(s, s.calls[step.call].buffer.value, step.call);
    }
  }

  /** Carried depends on the channels only. */
  lemma SameChannels(s: Store, t: Store, n: nat)
    requires forall w: nat :: InChannel(s, n, w) <==> InChannel(t, n, w)
    ensures Carried(s, n) <==> Carried(t, n)
  {
    if Carried(s, n) {
      var w: nat :| w < |s.calls| && InChannel(s, n, w);
      assert InChannel(t, n, w);
    }
    if Carried(t, n) {
      var w: nat :| w < |t.calls| && InChannel(t, n, w);
      assert InChannel(s, n, w);
    }
  }

  lemma PlaceAfterSend(s: Store, key: Key, payload: Bytes, n: nat)
    requires Inv(s) && n <= |s.sent|
    ensures Places(SendTo(s, key, payload).0, n) == 1
  {
    var t := SendTo(s, key, payload).0;
    if n < |s.sent| {
      assert Places(s, n) == 1;
      assert t.sent[n] == s.sent[n];
      forall w: nat ensures InChannel(s, n, w) <==> InChannel(t, n, w) {}
      SameChannels(s, t, n);
    } else if key in s.waiters {
      assert InChannel(t, n, s.waiters[key]);
    } else {
      assert forall w: nat :: InChannel(t, n, w) ==> InChannel(s, n, w);
    }
  }

  lemma PlaceAfterWait(s: Store, key: Key, n: nat)
    requires Inv(s) && n < |s.sent|
    ensures Places(Enter(s, key), n) == 1
  {
    var t := Enter(s, key);
    assert Places(s, n) == 1;
    SameChannels(s, t, n);
  }

  lemma PlaceAfterReceive(s: Store, w: nat, n: nat)
    requires Inv(s) && Enabled(s, Receive(w)) && n < |s.sent|
    ensures Places(Next(s, Receive(w)), n) == 1
  {
    var t := Next(s, Receive(w));
    assert Places(s, n) == 1;
    if InChannel(s, n, w) {
      assert Carried(s, n);
      assert forall v: nat :: InChannel(t, n, v) ==> InChannel(s, n, v);
    } else {
      SameChannels(s, t, n);
    }
  }

  lemma PlaceAfterDrain(s: Store, execution: string, n: nat)
    requires Inv(s) && n < |s.sent|
    ensures Places(DrainAll(s, execution), n) == 1
  {
    var t := DrainAll(s, execution);
    assert Places(s, n) == 1;
    SameChannels(s, t, n);
    if Pending(s, n) && s.sent[n].key.execution == execution {
      assert n in t.drained;
    }
  }

  lemma PlaceKeeps(s: Store, step: Step, n: nat)
    requires Inv(s) && Enabled(s, step) && n < |Next(s, step).sent|
    ensures Places(Next(s, step), n) == 1
  {
    match step
    case Send(key, payload) => PlaceAfterSend(s, key, payload, n);
    case Wait(key) => PlaceAfterWait(s, key, n);
    case Receive(w) => PlaceAfterReceive(s, w, n);
    case Drain(execution) => PlaceAfterDrain(s, execution, n);
    case _ =>
      assert Places(s, n) == 1;
      SameChannels(s, Next(s, step), n);
  }

  lemma ConservedKeeps(s: Store, step: Step)
    requires Inv(s) && Enabled(s, step)
    ensures Conserved(Next(s, step))
  {
    var t := Next(s, step);
    forall n: nat | n < |t.sent| ensures Places(t, n) == 1 {
      PlaceKeeps(s, step, n);
    }
    forall n: nat, v: nat, w: nat | InChannel(t, n, v) && InChannel(t, n, w) ensures v == w {
      ChannelKeeps(s, step, n, v);
      ChannelKeeps(s, step, n, w);
    }
    if |t.received| > |s.received| {
      JustReceived(s, step);
    }
  }

  /** What a step receives was not received before. */
  lemma JustReceived(s: Store, step: Step)
    requires Inv(s) && Enabled(s, step) && |Next(s, step).received| > |s.received|
    ensures var t := Next(s, step);
            |t.received| == |s.received| + 1 && t.received[..|s.received|] == s.received
            && t.received[|s.received|] !in s.received
  {
    var n := Next(s, step).received[|s.received|];
    if step.Receive? {
      assert InChannel(s, n, step.call);
      assert Carried(s, n);
    }
    assert Places(s, n) == 1;
  }

  // ---------------------------------------------------------------- runs

  /** The store after the steps, if each of them was possible in its turn. */
  function Follow(s: Store, steps: seq<Step>): Option<Store> {
    if steps == [] then Some(s)
    else match Follow(s, steps[..|steps| - 1])
      case None => None
      case Some(t) =>
        var last := steps[|steps| - 1];
        if Indexed(t) && Enabled(t, last) then Some(Next(t, last)) else None
  }

  function After(steps: seq<Step>): Option<Store> {
    Follow(EMPTY, steps)
  }

  lemma FollowStep(s: Store, steps: seq<Step>, t: Store, step: Step)
    requires Follow(s, steps) == Some(t) && Indexed(t) && Enabled(t, step)
    ensures Follow(s, steps + [step]) == Some(Next(t, step))
  {
    assert (steps + [step])[..|steps|] == steps;
  }

  lemma InvKeeps(s: Store, step: Step)
    requires Inv(s) && Enabled(s, step)
    ensures Inv(Next(s, step))
  {
    SafeKeeps(s, step);
    SoundKeeps(s, step);
    ConservedKeeps(s, step);
  }

  lemma {:induction false} FollowKeeps(s: Store, steps: seq<Step>)
    requires Inv(s) && Follow(s, steps).Some?
    ensures Inv(Follow(s, steps).value)
  {
    hide Safe, Sound, Conserved, Next;
    if steps != [] {
      FollowKeeps(s, steps[..|steps| - 1]);
      InvKeeps(Follow(s, steps[..|steps| - 1]).value, steps[|steps| - 1]);
    }
  }

  function Sends(steps: seq<Step>): seq<Signal> {
    if steps == [] then []
    else
      var last := steps[|steps| - 1];
      Sends(steps[..|steps| - 1]) + if last.Send? then [Signal(last.key, last.payload)] else []
  }

  lemma {:induction false} SentIsWhatWasSent(steps: seq<Step>)
    requires After(steps).Some?
    ensures After(steps).value.sent == Sends(steps)
  {
    if steps != [] {
      SentIsWhatWasSent(steps[..|steps| - 1]);
    }
  }

  lemma ToldApart(s: Store, n: nat)
    requires forall v: nat, w: nat :: InChannel(s, n, v) && InChannel(s, n, w) ==> v == w
    ensures Whereabouts(s, n) == Places(s, n)
  {
    if Carried(s, n) {
      var w: nat :| w < |s.calls| && InChannel(s, n, w);
      assert s.calls[w].phase == Blocked ==> Unread(s, n);
      assert s.calls[w].phase != Blocked ==> Abandoned(s, n);
    }
  }

  /** Conservation, over every interleaving: each signal ever sent is in exactly one place (received,
      pending, unread in the channel of one waiting call, abandoned in the channel of a call that has
      left, overwritten or drained) and in no place twice. */
  lemma SignalsAreConserved(steps: seq<Step>)
    requires After(steps).Some?
    ensures Inv(After(steps).value)
    ensures After(steps).value.sent == Sends(steps)
    ensures forall n :: 0 <= n < |Sends(steps)| ==> Whereabouts(After(steps).value, n) == 1
  {
    FollowKeeps(EMPTY, steps);
    SentIsWhatWasSent(steps);
    var s := After(steps).value;
    hide Follow, After, Safe, Sound, Whereabouts;
    forall n: nat | n < |s.sent| ensures Whereabouts(s, n) == 1 {
      ToldApart(s, n);
      assert Places(s, n) == 1;
    }
  }

  /** A signal for which Send reported a live waiter is lost after all exactly when that waiter gives
      up with the signal in its channel, or was already leaving when it was sent. */
  lemma LostExactlyWhen(s: Store, step: Step, n: nat)
    requires Inv(s) && Enabled(s, step) && !Abandoned(s, n)
    ensures Abandoned(Next(s, step), n) <==>
            || (step.GiveUp? && InChannel(s, n, step.call))
            || (step.Send? && n == |s.sent| && step.key in s.waiters && s.calls[s.waiters[step.key]].phase == Leaving)
  {
    var t := Next(s, step);
    if Abandoned(t, n) {
      var w: nat :| w < |t.calls| && InChannel(t, n, w) && t.calls[w].phase != Blocked;
      ChannelKeeps(s, step, n, w);
      assert InChannel(s, n, w) ==> s.calls[w].phase == Blocked;
    }
    if step.GiveUp? && InChannel(s, n, step.call) {
      assert InChannel(t, n, step.call);
    }
    if step.Send? && n == |s.sent| && step.key in s.waiters {
      assert InChannel(t, n, s.waiters[step.key]);
    }
  }

  lemma LostForGood(s: Store, step: Step, n: nat)
    requires Inv(s) && Enabled(s, step) && Abandoned(s, n)
    ensures Abandoned(Next(s, step), n)
  {
    var w: nat :| w < |s.calls| && InChannel(s, n, w) && s.calls[w].phase != Blocked;
    assert InChannel(Next(s, step), n, w);
  }

  /** A wait that registered returns exactly when it takes the signal from its channel, sees the channel
      closed, or has cleaned up after giving up; it starts to leave exactly when it gives up; and whoever
      has returned has returned for good. */
  lemma WaitReturnsExactlyWhen(s: Store, step: Step, w: nat)
    requires Inv(s) && Enabled(s, step) && w < |s.calls|
    ensures w < |Next(s, step).calls|
    ensures var before, after := s.calls[w].phase, Next(s, step).calls[w].phase;
            && (before != Returned ==>
                  (after == Returned <==> step == Receive(w) || step == SeeClosed(w) || step == CleanUp(w)))
            && (before == Blocked ==> (after == Leaving <==> step == GiveUp(w)))
            && (before == Leaving ==> after != Blocked)
            && (before == Returned ==> after == Returned)
  {
  }

  /** A send to a full channel, a send to a closed one, or a channel closed twice. */
  ghost predicate Faults(s: Store, step: Step)
    requires Indexed(s)
  {
    match step
    case Send(key, _) => ChannelFull(s, key) || (key in s.waiters && s.calls[s.waiters[key]].closed)
    case Drain(execution) =>
      exists j, k :: j in s.waiters && k in s.waiters && j.execution == k.execution == execution
                     && (s.calls[s.waiters[j]].closed || (j != k && s.waiters[j] == s.waiters[k]))
    case _ => false
  }

  /** No step of any run panics or takes the default branch of Send, even if waits overlap. */
  lemma NoChannelFaults(steps: seq<Step>, step: Step)
    requires After(steps).Some?
    ensures Indexed(After(steps).value) && !Faults(After(steps).value, step)
  {
    SignalsAreConserved(steps);
  }

  // ---------------------------------------------------------------- the two orders of delivery

  /** The waiter first: Send reports a live waiter, and that waiter receives this very signal. */
  lemma WaiterFirst(s: Store, key: Key, payload: Bytes)
    requires Inv(s) && key !in s.pending
    ensures var waiting := Enter(s, key);
            var (t, notified) := SendTo(waiting, key, payload);
            && notified && Enabled(t, Receive(|s.calls|))
            && Next(t, Receive(|s.calls|)).received == s.received + [|s.sent|]
            && t.sent[|s.sent|] == Signal(key, payload)
            && Next(t, Receive(|s.calls|)).waiters == s.waiters - {key}
            && Next(t, Receive(|s.calls|)).pending == s.pending
  {
    var (t, notified) := SendTo(Enter(s, key), key, payload);
    assert Next(t, Receive(|s.calls|)).waiters.Keys == s.waiters.Keys - {key};
  }

  /** The signal first: it is kept, and the next Wait returns it at once. */
  lemma SignalFirst(s: Store, key: Key, payload: Bytes)
    requires Inv(s) && key !in s.waiters
    ensures var (t, notified) := SendTo(s, key, payload);
            && !notified && t.calls == s.calls
            && Enter(t, key).received == s.received + [|s.sent|]
            && t.sent[|s.sent|] == Signal(key, payload)
            && Enter(t, key).pending == s.pending - {key}
            && Enter(t, key).waiters == s.waiters
            && t.overwritten == s.overwritten + (if key in s.pending then {s.pending[key]} else {})
  {
    var (t, notified) := SendTo(s, key, payload);
    assert Enter(t, key).pending.Keys == s.pending.Keys - {key};
  }

  // ---------------------------------------------------------------- whose signals

  /** Drain drops what is pending for the execution and closes the channels of its registered waits, so
      that each that still blocks returns; no signal, no registration and no channel of any other
      execution is touched. */
  lemma DrainIsForOneExecution(s: Store, execution: string)
    requires Inv(s)
    ensures var t := Next(s, Drain(execution));
            && (forall k :: k in t.pending <==> k in s.pending && k.execution != execution)
            && (forall k :: k in t.pending ==> t.pending[k] == s.pending[k])
            && (forall k :: k in t.waiters <==> k in s.waiters && k.execution != execution)
            && (forall k :: k in t.waiters ==> t.waiters[k] == s.waiters[k])
            && (forall n: nat ::
                  n in t.drained <==> n in s.drained || (Pending(s, n) && s.sent[n].key.execution == execution))
            && |t.calls| == |s.calls|
            && (forall w :: 0 <= w < |s.calls| ==>
                  t.calls[w] == if Registered(s, w) && s.calls[w].key.execution == execution
                                then s.calls[w].(closed := true) else s.calls[w])
            && (forall w :: 0 <= w < |s.calls| ==>
                  (Registered(s, w) && s.calls[w].key.execution == execution && s.calls[w].phase == Blocked ==>
                     Enabled(t, SeeClosed(w))))
            && t.sent == s.sent && t.received == s.received && t.overwritten == s.overwritten
  {
    forall w | 0 <= w < |s.calls|
      ensures Closes(s, execution, w) <==> Registered(s, w) && s.calls[w].key.execution == execution
    {
      if Registered(s, w) && s.calls[w].key.execution == execution {
        assert s.calls[w].key in s.waiters;
      }
    }
    forall n: nat
      ensures n in DrainAll(s, execution).drained
              <==> n in s.drained || (Pending(s, n) && s.sent[n].key.execution == execution)
    {
      if Pending(s, n) { assert s.sent[n].key in s.pending; }
    }
  }

  /** The key that a step is about. */
  function KeyOf(s: Store, step: Step): Option<Key> {
    match step
    case Send(key, _) => Some(key)
    case Wait(key) => Some(key)
    case CleanUp(w) => if w < |s.calls| then Some(s.calls[w].key) else None
    case _ => None
  }

  /** No step but Drain touches what is pending or registered under another key, or the channel of a
      wait for another key. */
  lemma EveryStepIsForOneKey(s: Store, step: Step, key: Key)
    requires Inv(s) && Enabled(s, step) && !step.Drain? && KeyOf(s, step) != Some(key)
    ensures var t := Next(s, step);
            && (key in t.pending <==> key in s.pending) && (key in t.pending ==> t.pending[key] == s.pending[key])
            && (key in t.waiters <==> key in s.waiters) && (key in t.waiters ==> t.waiters[key] == s.waiters[key])
            && (KeyOf(s, step).Some? ==>
                  forall w :: 0 <= w < |s.calls| && s.calls[w].key == key ==> t.calls[w] == s.calls[w])
  {
  }

  // ---------------------------------------------------------------- the store

  function PayloadOf(s: Store, n: nat): Bytes {
    if n < |s.sent| then s.sent[n].payload else []
  }

  /** What a Wait finds in its first critical section. */
  datatype Entry = Immediately(payload: Bytes) | Waiting(call: nat)

  /** The store with its channels, one method per critical section. The fields that nothing but the
      claims above needs are ghost. */
  class SignalStore {
    var waiters: map<Key, nat>
    var pending: map<Key, nat>
    var calls: seq<Call>
    var sent: seq<Signal>
    ghost var received: seq<nat>
    ghost var overwritten: set<nat>
    ghost var drained: set<nat>

    ghost function View(): Store
      reads this
    {
      Store(waiters, pending, calls, sent, received, overwritten, drained)
    }

    constructor ()
      ensures View() == EMPTY && Inv(View())
    {
      waiters, pending, calls, sent := map[], map[], [], [];
      received, overwritten, drained := [], {}, {};
    }

    method Send(key: Key, payload: Bytes) returns (notified: bool)
      requires Inv(View())
      modifies this
      ensures (View(), notified) == SendTo(old(View()), key, payload)
      ensures notified <==> key in old(waiters)
      ensures Inv(View())
    {
      ConservedKeeps(View(), Step.Send(key, payload));
      SoundKeeps(View(), Step.Send(key, payload));
      var message := |sent|;
      sent := sent + [Signal(key, payload)];
      if key in waiters {
        var w := waiters[key];
        if calls[w].buffer.None? {
          calls := calls[w := calls[w].(buffer := Some(message))];
          waiters := waiters - {key};
          return true;
        }
      }
      overwritten := overwritten + if key in pending then {pending[key]} else {};
      pending := pending[key := message];
      return false;
    }

    /** The first critical section of Wait. */
    method Wait(key: Key) returns (entry: Entry)
      requires Inv(View())
      modifies this
      ensures View() == Enter(old(View()), key) && Inv(View())
      ensures entry == if key in old(pending) then Immediately(sent[old(pending)[key]].payload)
              else Waiting(|old(calls)|)
    {
      ConservedKeeps(View(), Step.Wait(key));
      SoundKeeps(View(), Step.Wait(key));
      if key in pending {
        var message := pending[key];
        received := received + [message];
        pending := pending - {key};
        return Immediately(sent[message].payload);
      }
      var w := |calls|;
      calls := calls + [Call(key, None, false, Blocked)];
      waiters := waiters[key := w];
      return Waiting(w);
    }

    /** The first case of the select; None stands for the cancellation seen on a closed channel. */
    method Take(w: nat) returns (payload: Option<Bytes>)
      requires Inv(View()) && (Enabled(View(), Receive(w)) || Enabled(View(), SeeClosed(w)))
      modifies this
      ensures old(Enabled(View(), Receive(w))) ==>
                View() == Next(old(View()), Receive(w))
                && payload == Some(PayloadOf(View(), old(calls[w]).buffer.value))
      ensures old(Enabled(View(), SeeClosed(w))) ==> View() == Next(old(View()), SeeClosed(w)) && payload == None
      ensures Inv(View())
    {
      var step := if calls[w].buffer.Some? then Receive(w) else SeeClosed(w);
      ConservedKeeps(View(), step);
      SoundKeeps(View(), step);
      if calls[w].buffer.Some? {
        var message := calls[w].buffer.value;
        assert InChannel(View(), message, w);
        calls := calls[w := calls[w].(buffer := None, phase := Returned)];
        received := received + [message];
        return Some(sent[message].payload);
      }
      calls := calls[w := calls[w].(phase := Returned)];
      return None;
    }

    /** The critical section after a timeout or a cancellation. */
    method Leave(w: nat)
      requires Inv(View()) && Enabled(View(), CleanUp(w))
      modifies this
      ensures View() == Next(old(View()), CleanUp(w)) && Inv(View())
    {
      ConservedKeeps(View(), CleanUp(w));
      SoundKeeps(View(), CleanUp(w));
      waiters := waiters - {calls[w].key};
      calls := calls[w := calls[w].(phase := Returned)];
    }

    /** The first loop of Drain, over the keys of pending in any order. */
    method DrainPending(execution: string)
      modifies `pending, `drained
      ensures pending == DrainAll(old(View()), execution).pending && drained == DrainAll(old(View()), execution).drained
      ensures forall k :: k in pending <==> k in old(pending) && k.execution != execution
      ensures forall k :: k in pending ==> pending[k] == old(pending)[k]
    {
      var keys := pending.Keys;
      while keys != {}
        invariant keys <= old(pending).Keys
        invariant pending == map k | k in old(pending) && (k.execution != execution || k in keys) :: old(pending)[k]
        invariant drained == old(drained)
                  + set k | k in old(pending) && k.execution == execution && k !in keys :: old(pending)[k]
        decreases keys
      {
        var k :| k in keys;
        keys := keys - {k};
        if k.execution == execution {
          drained := drained + {pending[k]};
          pending := pending - {k};
        }
      }
    }

    /** The second loop of Drain. */
    method DrainWaiters(execution: string)
      requires Indexed(View())
      modifies `waiters, `calls
      ensures waiters == DrainAll(old(View()), execution).waiters && calls == DrainAll(old(View()), execution).calls
      ensures forall k :: k in waiters <==> k in old(waiters) && k.execution != execution
      ensures forall k :: k in waiters ==> waiters[k] == old(waiters)[k]
    {
      var keys := waiters.Keys;
      ghost var done: set<Key> := {};
      while keys != {}
        invariant keys + done == old(waiters).Keys && keys !! done
        invariant waiters == map k | k in old(waiters) && (k.execution != execution || k in keys) :: old(waiters)[k]
        invariant |calls| == |old(calls)|
        invariant forall w :: 0 <= w < |calls| ==>
                    calls[w] == if exists k :: k in done && k.execution == execution && old(waiters)[k] == w
                                then old(calls)[w].(closed := true) else old(calls)[w]
        decreases keys
      {
        var k :| k in keys;
        keys := keys - {k};
        done := done + {k};
        if k.execution == execution {
          var w := waiters[k];
          calls := calls[w := calls[w].(closed := true)];
          waiters := waiters - {k};
        }
      }
    }

    /** Both loops, under one lock. */
    method DrainMaps(execution: string)
      requires Indexed(View())
      modifies this
      ensures View() == DrainAll(old(View()), execution)
      ensures forall k :: k in pending <==> k in old(pending) && k.execution != execution
      ensures forall k :: k in pending ==> pending[k] == old(pending)[k]
      ensures forall k :: k in waiters <==> k in old(waiters) && k.execution != execution
      ensures forall k :: k in waiters ==> waiters[k] == old(waiters)[k]
    {
      DrainPending(execution);
      DrainWaiters(execution);
    }

    method Drain(execution: string)
      requires Inv(View())
      modifies this
      ensures View() == DrainAll(old(View()), execution) && Inv(View())
      ensures forall k :: k in pending <==> k in old(pending) && k.execution != execution
      ensures forall k :: k in pending ==> pending[k] == old(pending)[k]
      ensures forall k :: k in waiters <==> k in old(waiters) && k.execution != execution
      ensures forall k :: k in waiters ==> waiters[k] == old(waiters)[k]
    {
      assert Indexed(View());
      hide Safe, Sound, Conserved, DrainAll;
      InvKeeps(View(), Step.Drain(execution));
      DrainMaps(execution);
    }
  }
}
