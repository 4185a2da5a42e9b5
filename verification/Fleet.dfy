/** All executions together: what a transaction on one of them is for the rest, and what the expiry
    sweep does when nothing comes between its statements. */
module Fleet {
  import opened StateMachine
  import opened Domain
  import opened Rows
  import opened Definitions
  import opened History
  import opened Instances
  import opened Invariants
  import opened Runs
  import opened Storage

  /** Every execution satisfies the invariant of a run, and every definition is well formed. */
  ghost predicate AllOk(db: Tables) {
    && Sound(db)
    && (forall d :: d in db.definitions ==> WellFormed(db.definitions[d].steps))
    && (forall e :: e in db.executions ==> Inv(ViewOf(db, e)))
  }

  /** A transaction on one execution is for the others no more than the passing of ids. */
  lemma OneChanged(a: Tables, b: Tables, e: int)
    requires AllOk(a) && Only(a, b, e) && e in b.executions && Inv(ViewOf(b, e))
    ensures AllOk(b)
  {
    hide ViewOf, Inv, Sound, SameOwners, WellFormed;
    forall o | o in b.executions ensures Inv(ViewOf(b, o)) {
      if o != e {
        ElsewhereKeeps(ViewOf(a, o), 0, b.nextId - a.nextId, b.nextEvent - a.nextEvent);
        assert ViewOf(b, o) == At(ViewOf(a, o), b);
      }
    }
  }

  // ---------------------------------------------------------------- runs of each execution

  ghost predicate Reaches(i: Instance, n: Instance) {
    exists acts: seq<Action> :: Run(i, acts) == n
  }

  lemma ReachesByOne(i: Instance, a: Action)
    ensures Reaches(i, Next(i, a))
  {
    hide Next;
    assert [a][..0] == [];
    assert Run(i, [a]) == Next(Run(i, []), a);
  }

  lemma {:induction false} RunTwice(i: Instance, a: seq<Action>, b: seq<Action>)
    ensures Run(Run(i, a), b) == Run(i, a + b)
  {
    hide Next;
    if b == [] {
      assert a + b == a;
    } else {
      RunTwice(i, a, b[..|b| - 1]);
      assert (a + b)[..|a + b| - 1] == a + b[..|b| - 1];
    }
  }

  lemma ReachesTwice(i: Instance, j: Instance, k: Instance)
    requires Reaches(i, j) && Reaches(j, k)
    ensures Reaches(i, k)
  {
    hide Run;
    var a :| Run(i, a) == j;
    var b :| Run(j, b) == k;
    RunTwice(i, a, b);
  }

  /** Every execution of a is in b what some run makes of it: all that is proved of runs holds of
      the rows in the tables. */
  ghost predicate Evolves(a: Tables, b: Tables) {
    forall e :: e in a.executions ==> e in b.executions && Reaches(ViewOf(a, e), ViewOf(b, e))
  }

  lemma EvolvesNot(a: Tables)
    ensures Evolves(a, a)
  {
    hide ViewOf;
    forall e | e in a.executions ensures Reaches(ViewOf(a, e), ViewOf(a, e)) {
      assert Run(ViewOf(a, e), []) == ViewOf(a, e);
    }
  }

  lemma EvolvesTwice(a: Tables, b: Tables, c: Tables)
    requires Evolves(a, b) && Evolves(b, c)
    ensures Evolves(a, c)
  {
    hide ViewOf, Reaches;
    forall e | e in a.executions ensures e in c.executions && Reaches(ViewOf(a, e), ViewOf(c, e)) {
      ReachesTwice(ViewOf(a, e), ViewOf(b, e), ViewOf(c, e));
    }
  }

  /** The others take part as if ids had been taken elsewhere. */
  lemma TakenElsewhere(a: Tables, b: Tables, o: int)
    requires o in a.executions && o in b.executions && ViewOf(b, o) == At(ViewOf(a, o), b)
    requires a.now <= b.now && a.nextId <= b.nextId && a.nextEvent <= b.nextEvent
    ensures Reaches(ViewOf(a, o), ViewOf(b, o))
  {
    hide ViewOf, Reaches;
    var act := Elsewhere(b.now - a.now, b.nextId - a.nextId, b.nextEvent - a.nextEvent);
    ReachesByOne(ViewOf(a, o), act);
    assert ViewOf(b, o) == Next(ViewOf(a, o), act);
  }

  lemma OneEvolves(a: Tables, b: Tables, e: int)
    requires Only(a, b, e) && e in a.executions && Reaches(ViewOf(a, e), ViewOf(b, e))
    ensures Evolves(a, b)
  {
    hide ViewOf, Reaches, Sound, SameOwners;
    forall o | o in a.executions ensures o in b.executions && Reaches(ViewOf(a, o), ViewOf(b, o)) {
      if o != e {
        assert ViewOf(b, o) == At(ViewOf(a, o), b);
        TakenElsewhere(a, b, o);
      }
    }
  }

  /** An action on e is, for the tables as a whole, a step that keeps the invariant. */
  lemma OneActs(a: Tables, b: Tables, e: int, act: Action)
    requires AllOk(a) && Only(a, b, e) && e in a.executions && ViewOf(b, e) == Next(ViewOf(a, e), act)
    ensures AllOk(b) && Evolves(a, b)
  {
    hide ViewOf, Reaches, Next, Sound, SameOwners, Inv, Evolves;
    NextKeeps(ViewOf(a, e), act);
    OneChanged(a, b, e);
    ReachesByOne(ViewOf(a, e), act);
    OneEvolves(a, b, e);
  }

  lemma ReportActs(a: Tables, b: Tables, e: int, id: int, result: Bytes, err: string, commits: bool)
    requires AllOk(a) && Only(a, b, e) && e in a.executions
    requires var i := ViewOf(a, e);
             var tx := CompleteTaskTx(i, id, result, err);
             ViewOf(b, e) == if commits then Settle(i, tx) else SettleFailed(i, tx)
    ensures AllOk(b) && Evolves(a, b)
    ensures CompleteTaskTx(ViewOf(a, e), id, result, err).Commit? <==> id in ViewOf(a, e).tasks
  {
    hide ViewOf, Reaches, Settle, SettleFailed, CompleteTaskTx, Sound, SameOwners, Inv, Evolves, LoseReport;
    ReportKeeps(ViewOf(a, e), id, result, err);
    if commits {
      OneActs(a, b, e, Report(id, result, err));
    } else {
      FailedCommitIsALostReport(ViewOf(a, e), id, result, err);
      OneActs(a, b, e, if err == "" then LostReport(id, result) else Elsewhere(0, 0, 0));
    }
  }

  lemma ReportCompensationActs(a: Tables, b: Tables, e: int, id: int, result: Bytes, err: string, commits: bool)
    requires AllOk(a) && Only(a, b, e) && e in a.executions
    requires var i := ViewOf(a, e);
             var tx := CompleteCompensationTx(i, id, result, err);
             ViewOf(b, e) == if commits then Settle(i, tx) else SettleFailed(i, tx)
    ensures AllOk(b) && Evolves(a, b)
    ensures CompleteCompensationTx(ViewOf(a, e), id, result, err).Commit? <==> id in ViewOf(a, e).comps
  {
    hide ViewOf, Reaches, Settle, SettleFailed, CompleteCompensationTx, Sound, SameOwners, Inv, Evolves;
    ReportCompensationKeeps(ViewOf(a, e), id, result, err);
    if commits {
      OneActs(a, b, e, ReportCompensation(id, result, err));
    } else {
      FailedCommitOfCompensation(ViewOf(a, e), id, result, err);
      OneActs(a, b, e, Elsewhere(0, 0, 0));
    }
  }

  lemma ClockMoved(a: Tables, seconds: nat)
    requires Sound(a)
    ensures var b := a.(now := a.now + seconds);
            Sound(b) && forall e :: e in a.executions ==> ViewOf(b, e) == ViewOf(a, e).(now := a.now + seconds)
  {
    hide RowsOf, EventsOf;
  }

  lemma TimePassesFor(a: Tables, b: Tables, e: int)
    requires e in a.executions && e in b.executions && Inv(ViewOf(a, e)) && a.now <= b.now
    requires ViewOf(b, e) == ViewOf(a, e).(now := b.now)
    ensures Inv(ViewOf(b, e)) && Reaches(ViewOf(a, e), ViewOf(b, e))
  {
    hide Inv, ViewOf, Reaches;
    var act := Elsewhere(b.now - a.now, 0, 0);
    NextKeeps(ViewOf(a, e), act);
    ReachesByOne(ViewOf(a, e), act);
  }

  lemma TimePasses(a: Tables, seconds: nat)
    requires AllOk(a)
    ensures var b := a.(now := a.now + seconds);
            AllOk(b) && Evolves(a, b)
            && forall e :: e in a.executions ==> ViewOf(b, e) == ViewOf(a, e).(now := a.now + seconds)
  {
    var b := a.(now := a.now + seconds);
    ClockMoved(a, seconds);
    hide Inv, WellFormed, ViewOf, Sound, Reaches;
    forall e | e in b.executions ensures Inv(ViewOf(b, e)) && Reaches(ViewOf(a, e), ViewOf(b, e)) {
      TimePassesFor(a, b, e);
    }
  }

  /** Starting an execution is nothing to the others. */
  lemma OneStarted(a: Tables, b: Tables, e: int)
    requires AllOk(a) && Sound(b) && b.definitions == a.definitions && b.now == a.now
    requires a.nextId <= b.nextId && a.nextEvent <= b.nextEvent
    requires b.executions.Keys == a.executions.Keys + {e} && Inv(ViewOf(b, e))
    requires forall o :: o in a.executions ==> ViewOf(b, o) == At(ViewOf(a, o), b)
    ensures AllOk(b) && Evolves(a, b)
  {
    hide ViewOf, Inv, Sound, WellFormed, Reaches;
    forall o | o in b.executions
      ensures Inv(ViewOf(b, o)) && (o in a.executions ==> Reaches(ViewOf(a, o), ViewOf(b, o)))
    {
      if o in a.executions {
        ElsewhereKeeps(ViewOf(a, o), 0, b.nextId - a.nextId, b.nextEvent - a.nextEvent);
        assert ViewOf(b, o) == At(ViewOf(a, o), b);
        TakenElsewhere(a, b, o);
      }
    }
  }

  lemma {:induction false} FanOutStays(i: Instance, n: nat, m: nat)
    requires n <= m <= |i.steps| && FanOut(i, n).None?
    ensures FanOut(i, m).None?
  {
    if n < m {
      FanOutStays(i, n, m - 1);
    }
  }

  /** A rolled-back start leaves every other execution as it was. */
  lemma RolledBackStart(saved: Tables, mid: Tables, db: Tables, e: int)
    requires Sound(saved) && e !in saved.executions && mid.executions.Keys == saved.executions.Keys + {e}
    requires forall o :: o in saved.executions ==> ViewOf(mid, o) == ViewOf(saved, o)
    requires Only(mid, db, e)
    ensures var r := RolledBackTo(saved, db);
            Sound(r) && r.executions == saved.executions
            && forall o :: o in saved.executions ==> ViewOf(r, o) == ViewOf(saved, o)
  {
    var r := RolledBackTo(saved, db);
    forall o | o in saved.executions ensures ViewOf(r, o) == ViewOf(saved, o) {
      hide RowsOf, EventsOf, Sound, SameOwners;
      assert ViewOf(db, o) == At(ViewOf(mid, o), db);
      assert ViewOf(r, o).checkpoints == ViewOf(db, o).checkpoints;
    }
  }

  /** The four statements of the sweep for one execution, if nothing comes between them. */
  function Swept(i: Instance): Instance {
    SweepOn(SweepOn(SweepOn(SweepOn(i))))
  }

  lemma SweptKeeps(i: Instance)
    requires Inv(i)
    ensures Inv(Swept(i))
  {
    hide Inv, SweepOn;
    SweepKeeps(i);
    SweepKeeps(SweepOn(i));
    SweepKeeps(SweepOn(SweepOn(i)));
    SweepKeeps(SweepOn(SweepOn(SweepOn(i))));
  }

  /** b is i swept at some point of the event sequence, seen from db. */
  ghost predicate SweptAtSomeTime(i: Instance, b: Instance, db: Tables) {
    exists n: int :: b == At(Swept(i.(nextEvent := n)), db)
  }

  lemma AllFlipped(a: Tables, b: Tables)
    requires AllOk(a) && Sound(b) && b.executions.Keys == a.executions.Keys && b.definitions == a.definitions
    requires forall e :: e in b.executions ==> ViewOf(b, e) == Flip(ViewOf(a, e))
    ensures AllOk(b) && Evolves(a, b)
  {
    hide ViewOf, Inv, Sound, WellFormed, Reaches;
    forall e | e in b.executions ensures Inv(ViewOf(b, e)) && Reaches(ViewOf(a, e), ViewOf(b, e)) {
      FlipKeeps(ViewOf(a, e));
      ReachesByOne(ViewOf(a, e), ExpireOverdue);
    }
  }

  /** Of the executions of a, those in done are swept in b and the others are as they were. */
  ghost predicate SweepDone(a: Tables, b: Tables, done: seq<int>) {
    && b.executions.Keys == a.executions.Keys
    && (forall e :: e in a.executions ==>
          if e in done then SweptAtSomeTime(ViewOf(a, e), ViewOf(b, e), b) else ViewOf(b, e) == At(ViewOf(a, e), b))
  }

  lemma SweepGoesOn(a: Tables, last: Tables, b: Tables, done: seq<int>, e: int)
    requires SweepDone(a, last, done) && e in a.executions && e !in done
    requires Only(last, b, e) && ViewOf(b, e) == Swept(ViewOf(last, e))
    ensures SweepDone(a, b, done + [e])
  {
    hide ViewOf, Swept, Sound, SameOwners;
    forall o | o in a.executions
      ensures if o in done + [e] then SweptAtSomeTime(ViewOf(a, o), ViewOf(b, o), b)
              else ViewOf(b, o) == At(ViewOf(a, o), b)
    {
      if o == e {
        SweptClock(ViewOf(a, e), last, b);
        assert ViewOf(b, e) == At(Swept(ViewOf(a, e).(nextEvent := last.nextEvent)), b);
      } else {
        assert ViewOf(b, o) == At(ViewOf(last, o), b);
        if o in done {
          var n: int :| ViewOf(last, o) == At(Swept(ViewOf(a, o).(nextEvent := n)), last);
          assert ViewOf(b, o) == At(Swept(ViewOf(a, o).(nextEvent := n)), b);
        }
      }
    }
  }

  /** The sweep does not read the clock and takes no task ids. */
  lemma SweptClock(i: Instance, db: Tables, b: Tables)
    ensures At(Swept(At(i, db)), b) == At(Swept(i.(nextEvent := db.nextEvent)), b)
  {
    var j, k := At(i, db), i.(nextEvent := db.nextEvent);
    SweepOnClock(j, k);
    SweepOnClock(SweepOn(j), SweepOn(k));
    SweepOnClock(SweepOn(SweepOn(j)), SweepOn(SweepOn(k)));
    SweepOnClock(SweepOn(SweepOn(SweepOn(j))), SweepOn(SweepOn(SweepOn(k))));
    hide SweepOn;
  }

  lemma LogClock(j: Instance, k: Instance, kind: EventType)
    requires k == j.(now := k.now, nextId := k.nextId)
    ensures Log(k, kind, 0, "", Empty, TIMED_OUT)
            == Log(j, kind, 0, "", Empty, TIMED_OUT).(now := k.now, nextId := k.nextId)
  {
    hide Append, Outputs, Undone, Endings, RolledBack, Ordered;
  }

  lemma SweepOnClock(j: Instance, k: Instance)
    requires k == j.(now := k.now, nextId := k.nextId)
    ensures SweepOn(k) == SweepOn(j).(now := k.now, nextId := k.nextId)
    ensures SweepOn(k).now == k.now && SweepOn(k).nextId == k.nextId
  {
    hide Log, CancelRows;
    if j.sweep == CompensationsCancelled { LogClock(j, k, WorkflowTimedOut); }
    if j.sweep == TimeoutLogged { LogClock(j, k, WorkflowFailed); }
  }

  /** The first statement has marked the overdue executions, and no others. */
  lemma FlippedOnly(a: Tables, b: Tables, e: int, expired: seq<int>)
    requires e in a.executions && e in b.executions
    requires ViewOf(b, e) == Flip(ViewOf(a, e)) && (e in expired <==> Overdue(ViewOf(a, e)))
    ensures e in expired ==> ViewOf(b, e).sweep == Flipped
    ensures e !in expired ==> ViewOf(b, e) == ViewOf(a, e)
  {
    hide ViewOf;
  }

  lemma AllSound(db: Tables)
    requires AllOk(db)
    ensures Sound(db) && forall e :: e in db.executions ==> Inv(ViewOf(db, e))
  {
  }

  lemma SweepBegins(db: Tables)
    ensures SweepDone(db, db, [])
  {
    hide ViewOf;
  }

  lemma NextToSweep(a: Tables, b: Tables, done: seq<int>, e: int)
    requires SweepDone(a, b, done) && e in a.executions && e !in done
    ensures e in b.executions && ViewOf(b, e).sweep == ViewOf(a, e).sweep
  {
    hide ViewOf;
  }

  lemma SweptOneOk(a: Tables, b: Tables, e: int)
    requires AllOk(a) && Only(a, b, e) && e in a.executions && ViewOf(b, e) == Swept(ViewOf(a, e))
    ensures AllOk(b) && Evolves(a, b)
  {
    hide ViewOf, Inv, SweepOn, Reaches, Sound, SameOwners;
    var i := ViewOf(a, e);
    SweptKeeps(i);
    OneChanged(a, b, e);
    ReachesByOne(i, SweepStep);
    ReachesByOne(SweepOn(i), SweepStep);
    ReachesTwice(i, SweepOn(i), SweepOn(SweepOn(i)));
    ReachesByOne(SweepOn(SweepOn(i)), SweepStep);
    ReachesTwice(i, SweepOn(SweepOn(i)), SweepOn(SweepOn(SweepOn(i))));
    ReachesByOne(SweepOn(SweepOn(SweepOn(i))), SweepStep);
    ReachesTwice(i, SweepOn(SweepOn(SweepOn(i))), Swept(i));
    OneEvolves(a, b, e);
  }

  lemma SweepEnds(a: Tables, flipped: Tables, b: Tables, expired: seq<int>)
    requires flipped.executions.Keys == a.executions.Keys && SweepDone(flipped, b, expired)
    requires forall e :: e in flipped.executions ==> ViewOf(flipped, e) == Flip(ViewOf(a, e))
    requires forall e :: e in expired <==> e in a.executions && Overdue(ViewOf(a, e))
    ensures b.executions.Keys == a.executions.Keys
    ensures forall e :: e in a.executions ==>
              if Overdue(ViewOf(a, e)) then SweptAtSomeTime(Flip(ViewOf(a, e)), ViewOf(b, e), b)
              else ViewOf(b, e) == At(ViewOf(a, e), b)
  {
    hide ViewOf, SweptAtSomeTime;
  }
}
