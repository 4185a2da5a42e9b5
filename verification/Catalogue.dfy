/** The definitions table as the engine reads it. */
module Catalogue {
  import opened Domain
  import opened Definitions
  import opened Instances
  import opened Invariants
  import opened Registration
  import opened Storage
  import opened Fleet

  function KindOf(workflowType: string): WorkflowType {
    if workflowType == "CHAIN" then Chain else if workflowType == "INDEPENDENT" then Independent else Saga
  }

  /** What StartWorkflow reads of the registered definitions and their step rows. */
  function Workflows(defs: map<int, Definition>, stepRows: map<int, seq<StepDef>>): map<int, Workflow>
    requires stepRows.Keys == defs.Keys
  {
    map d | d in defs :: Workflow(KindOf(defs[d].workflowType), stepRows[d])
  }

  /** Registered definitions are what the engine demands of its definitions; their number of steps is
      the recorded one, no step names a queue, and their type is the one that was registered. */
  lemma RegisteredIsWellFormed(defs: map<int, Definition>, stepRows: map<int, seq<StepDef>>, nextId: nat,
                               latest: map<string, nat>)
    requires Registration.TablesOk(defs, stepRows, nextId, latest)
    ensures forall d :: d in defs ==>
              var w := Workflows(defs, stepRows)[d];
              && WellFormed(w.steps) && |w.steps| == defs[d].steps && NoOwnQueues(w.steps)
              && (w.kind == Chain <==> defs[d].workflowType == "CHAIN")
              && (w.kind == Independent <==> defs[d].workflowType == "INDEPENDENT")
              && (w.kind == Saga <==> defs[d].workflowType == "SAGA")
  {
    hide WellFormed, NoOwnQueues, VersionsTo;
  }

  /** A registration leaves the earlier definitions as the engine reads them, although it switches the
      previous version off. */
  lemma EarlierStay(defs: map<int, Definition>, after: map<int, Definition>, stepRows: map<int, seq<StepDef>>,
                    id: int, d: Definition, rows: seq<StepDef>)
    requires stepRows.Keys == defs.Keys && Supersedes(after, defs, id, d)
    ensures after.Keys == stepRows[id := rows].Keys
    ensures forall a :: a in defs ==> Workflows(after, stepRows[id := rows])[a] == Workflows(defs, stepRows)[a]
  {
  }

  lemma KnownDefinition(db: Tables, e: int)
    requires e in db.executions && Inv(ViewOf(db, e))
    ensures db.executions[e].definition in db.definitions
  {
    hide RowsOf, EventsOf;
  }

  lemma ViewStays(db: Tables, more: map<int, Workflow>, e: int)
    requires e in db.executions && db.executions[e].definition in db.definitions
    requires forall d :: d in db.definitions ==> d in more && more[d] == db.definitions[d]
    ensures ViewOf(db.(definitions := more), e) == ViewOf(db, e)
  {
    hide RowsOf, EventsOf;
  }

  /** Registering more definitions keeps the invariant of all executions and changes none of them. */
  lemma MoreDefinitionsKeep(db: Tables, more: map<int, Workflow>)
    requires AllOk(db)
    requires forall d :: d in more ==> WellFormed(more[d].steps)
    requires forall d :: d in db.definitions ==> d in more && more[d] == db.definitions[d]
    ensures AllOk(db.(definitions := more))
    ensures forall e :: e in db.executions ==> ViewOf(db.(definitions := more), e) == ViewOf(db, e)
  {
    var n := db.(definitions := more);
    forall e | e in db.executions ensures ViewOf(n, e) == ViewOf(db, e) {
      hide Inv, WellFormed, ViewOf;
      KnownDefinition(db, e);
      ViewStays(db, more, e);
    }
    hide Inv, WellFormed, ViewOf;
  }
}
