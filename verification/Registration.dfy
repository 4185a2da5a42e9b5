/** Registering workflow definitions (usecase/registration.go,
    infrastructure/persistence/workflow_definition_repository.go). The namespace of a workflow has
    the workflow's own name, so a name identifies both. */
module Registration {
  import opened Domain
  import opened Definitions

  datatype Definition = Definition(
    name: string,
    workflowType: string,
    version: int,
    steps: int,
    isActive: bool)

  datatype Rejection = InvalidType | NoSteps
  datatype Outcome = Registered(id: int) | Rejected(reason: Rejection)

  predicate ValidType(workflowType: string) {
    workflowType == "CHAIN" || workflowType == "INDEPENDENT" || workflowType == "SAGA"
  }

  /** The definition row of one step; idx counts from zero. */
  function StepRow(stepNames: seq<string>, compensationStepNames: seq<string>, timeout: int,
                   stepMaxAttempts: seq<int>, idx: nat): StepDef
    requires idx < |stepNames|
  {
    StepDef(idx + 1,
            stepNames[idx],
            if idx < |compensationStepNames| then compensationStepNames[idx] else "",
            if timeout <= 0 then 300 else timeout,
            "",
            if idx < |stepMaxAttempts| && stepMaxAttempts[idx] > 0 then stepMaxAttempts[idx] else 3)
  }

  /** The rows are indexed from 1 in the order of the names. Each has the name and the handler at its own
      place, no queue, 300 seconds and 3 attempts where nothing positive was given; and the lookup by
      index finds it. */
  ghost predicate StepRowsOf(rows: seq<StepDef>, stepNames: seq<string>, compensationStepNames: seq<string>,
                             timeout: int, stepMaxAttempts: seq<int>)
  {
    && |rows| == |stepNames|
    && (forall k :: 0 <= k < |rows| ==>
          && rows[k].stepIndex == k + 1
          && rows[k].stepName == stepNames[k]
          && rows[k].compensationStepName == (if k < |compensationStepNames| then compensationStepNames[k] else "")
          && rows[k].timeoutSeconds == (if timeout > 0 then timeout else 300)
          && rows[k].taskQueue == ""
          && rows[k].maxAttempts == (if k < |stepMaxAttempts| && stepMaxAttempts[k] > 0 then stepMaxAttempts[k] else 3)
          && StepAt(rows, k + 1) == Some(rows[k]))
  }

  ghost predicate HasVersion(defs: map<int, Definition>, name: string, version: int) {
    exists id :: id in defs && defs[id].name == name && defs[id].version == version
  }

  /** The versions of a name are exactly 1..n, each once, and version n alone is active. */
  ghost predicate VersionsTo(defs: map<int, Definition>, name: string, n: nat) {
    && (forall v :: HasVersion(defs, name, v) <==> 1 <= v <= n)
    && (forall id :: id in defs && defs[id].name == name ==> (defs[id].isActive <==> defs[id].version == n))
    && (forall a, b :: a in defs && b in defs && a != b && defs[a].name == defs[b].name == name ==>
          defs[a].version != defs[b].version)
  }

  /** Registration gives no step a queue of its own. */
  predicate NoOwnQueues(steps: seq<StepDef>) {
    forall k :: 0 <= k < |steps| ==> steps[k].taskQueue == ""
  }

  ghost predicate DefinitionOk(d: Definition, steps: seq<StepDef>) {
    d.steps == |steps| && WellFormed(steps) && ValidType(d.workflowType) && NoOwnQueues(steps)
  }

  /** The table after a registration: the previous version is switched off, the new one added. */
  function Superseded(defs: map<int, Definition>, previous: Option<int>, id: int, d: Definition): map<int, Definition>
    requires previous.Some? ==> previous.value in defs
  {
    if previous.Some?
    then defs[previous.value := defs[previous.value].(isActive := false)][id := d]
    else defs[id := d]
  }

  /** d is new and the only change to another definition is that those of the same name are not
      active any more. */
  ghost predicate Supersedes(after: map<int, Definition>, defs: map<int, Definition>, id: int, d: Definition) {
    && id !in defs && after.Keys == defs.Keys + {id} && after[id] == d
    && (forall a :: a in defs ==> after[a] == if defs[a].name == d.name then defs[a].(isActive := false) else defs[a])
  }

  lemma NextVersion(defs: map<int, Definition>, name: string, n: nat, previous: Option<int>, id: int, d: Definition)
    requires VersionsTo(defs, name, n) && id !in defs
    requires previous.Some? <==> n > 0
    requires previous.Some? ==> (
      previous.value in defs && defs[previous.value].name == name && defs[previous.value].version == n)
    requires d.name == name && d.version == n + 1 && d.isActive
    ensures VersionsTo(Superseded(defs, previous, id, d), name, n + 1)
    ensures forall a :: a in defs && defs[a].name == name ==>
              Superseded(defs, previous, id, d)[a] == defs[a].(isActive := false) && defs[a].version <= n
  {
    var after := Superseded(defs, previous, id, d);
    forall v ensures HasVersion(after, name, v) <==> 1 <= v <= n + 1 {
      if HasVersion(defs, name, v) {
        var a :| a in defs && defs[a].name == name && defs[a].version == v;
        assert after[a].version == v && after[a].name == name;
      }
      if v == n + 1 {
        assert after[id].version == v;
      }
      if HasVersion(after, name, v) && v != n + 1 {
        var a :| a in after && after[a].name == name && after[a].version == v;
        assert defs[a].version == v && defs[a].name == name;
      }
    }
    forall a | a in defs && defs[a].name == name ensures 1 <= defs[a].version <= n && !after[a].isActive {
      assert HasVersion(defs, name, defs[a].version);
      assert previous.Some? && a != previous.value ==> defs[a].version != defs[previous.value].version;
    }
  }

  lemma OtherNames(defs: map<int, Definition>, name: string, n: nat, previous: Option<int>, id: int, d: Definition)
    requires VersionsTo(defs, name, n) && id !in defs
    requires previous.Some? ==> previous.value in defs && defs[previous.value].name != name
    requires d.name != name
    ensures VersionsTo(Superseded(defs, previous, id, d), name, n)
  {
    var after := Superseded(defs, previous, id, d);
    forall v ensures HasVersion(after, name, v) <==> HasVersion(defs, name, v) {
      if HasVersion(defs, name, v) {
        var a :| a in defs && defs[a].name == name && defs[a].version == v;
        assert after[a] == defs[a];
      }
      if HasVersion(after, name, v) {
        var a :| a in after && after[a].name == name && after[a].version == v;
        assert defs[a] == after[a];
      }
    }
  }

  lemma SupersededSupersedes(defs: map<int, Definition>, n: nat, previous: Option<int>, id: int, d: Definition)
    requires VersionsTo(defs, d.name, n) && id !in defs
    requires previous.Some? <==> n > 0
    requires previous.Some? ==> (
      previous.value in defs && defs[previous.value].name == d.name && defs[previous.value].version == n)
    requires d.version == n + 1 && d.isActive
    ensures Supersedes(Superseded(defs, previous, id, d), defs, id, d)
  {
    NextVersion(defs, d.name, n, previous, id, d);
    hide VersionsTo;
  }

  /** All names after a registration, and what became of the other definitions. */
  lemma AllNames(defs: map<int, Definition>, latest: map<string, nat>, name: string, previous: Option<int>, id: int,
                 d: Definition)
    requires forall a :: a in defs ==> a != id && defs[a].name in latest
    requires forall other :: other in latest ==> latest[other] > 0 && VersionsTo(defs, other, latest[other])
    requires previous.Some? <==> name in latest
    requires previous.Some? ==> (
      previous.value in defs && defs[previous.value].name == name && defs[previous.value].version == latest[name])
    requires d.name == name && d.version == (if name in latest then latest[name] else 0) + 1 && d.isActive
    ensures var after := Superseded(defs, previous, id, d);
            && (forall other :: other in latest && other != name ==> VersionsTo(after, other, latest[other]))
            && VersionsTo(after, name, d.version)
            && Supersedes(after, defs, id, d)
  {
    var n := if name in latest then latest[name] else 0;
    if name !in latest { UnknownName(defs, latest, name); }
    hide VersionsTo, Superseded, Supersedes;
    NextVersion(defs, name, n, previous, id, d);
    SupersededSupersedes(defs, n, previous, id, d);
    forall other | other in latest && other != name
      ensures VersionsTo(Superseded(defs, previous, id, d), other, latest[other])
    {
      OtherNames(defs, other, latest[other], previous, id, d);
    }
  }

  lemma UnknownName(defs: map<int, Definition>, latest: map<string, nat>, name: string)
    requires (forall id :: id in defs ==> defs[id].name in latest) && name !in latest
    ensures VersionsTo(defs, name, 0)
  {
  }

  /** The loop over the step names: the rows are indexed 1, 2, 3, ..., have positive attempts and
      timeouts, and each index finds the row of its own name. */
  method CreateSteps(stepNames: seq<string>, compensationStepNames: seq<string>, timeout: int,
                     stepMaxAttempts: seq<int>)
    returns (rows: seq<StepDef>)
    requires stepNames != []
    ensures WellFormed(rows) && NoOwnQueues(rows)
    ensures StepRowsOf(rows, stepNames, compensationStepNames, timeout, stepMaxAttempts)
  {
    rows := [];
    var idx := 0;
    while idx < |stepNames|
      invariant 0 <= idx == |rows| <= |stepNames|
      invariant forall k :: 0 <= k < idx ==>
                  rows[k] == StepRow(stepNames, compensationStepNames, timeout, stepMaxAttempts, k)
    {
      rows := rows + [StepRow(stepNames, compensationStepNames, timeout, stepMaxAttempts, idx)];
      idx := idx + 1;
    }
    forall k | 0 <= k < |rows| ensures StepAt(rows, k + 1) == Some(rows[k]) {
      StepAtFindsEveryIndex(rows, k + 1);
    }
  }

  /** latest says, for each registered name, up to which version it has got. */
  ghost predicate TablesOk(defs: map<int, Definition>, stepRows: map<int, seq<StepDef>>, nextId: nat,
                           latest: map<string, nat>) {
    && stepRows.Keys == defs.Keys
    && (forall id :: id in defs ==> id < nextId && defs[id].name in latest && DefinitionOk(defs[id], stepRows[id]))
    && (forall name :: name in latest ==> latest[name] > 0 && VersionsTo(defs, name, latest[name]))
  }

  lemma TablesStayOk(defs: map<int, Definition>, stepRows: map<int, seq<StepDef>>, nextId: nat,
                     latest: map<string, nat>, previous: Option<int>, d: Definition, rows: seq<StepDef>)
    requires TablesOk(defs, stepRows, nextId, latest)
    requires previous.Some? <==> d.name in latest
    requires previous.Some? ==> (
      previous.value in defs && defs[previous.value].name == d.name && defs[previous.value].version == latest[d.name])
    requires d.version == (if d.name in latest then latest[d.name] else 0) + 1 && d.isActive
    requires DefinitionOk(d, rows)
    ensures var after := Superseded(defs, previous, nextId, d);
            && TablesOk(after, stepRows[nextId := rows], nextId + 1, latest[d.name := d.version])
            && Supersedes(after, defs, nextId, d)
            && nextId !in stepRows
  {
    hide VersionsTo, ValidType, WellFormed, NoOwnQueues;
    AllNames(defs, latest, d.name, previous, nextId, d);
  }

  /** The two tables; the step rows of a definition are kept in the order of their insertion. */
  class Registry {
    var defs: map<int, Definition>
    var stepRows: map<int, seq<StepDef>>
    var nextId: nat
    ghost var latest: map<string, nat>

    ghost predicate Valid()
      reads this
    {
      TablesOk(defs, stepRows, nextId, latest)
    }

    constructor ()
      ensures Valid() && defs == map[] && latest == map[]
    {
      defs, stepRows, nextId, latest := map[], map[], 0, map[];
    }

    /** GetByName finds the latest version of a name, and nothing if the name is new. */
    method GetByName(name: string) returns (found: Option<int>)
      requires Valid()
      ensures found.Some? <==> name in latest
      ensures found.Some? ==> (
        found.value in defs && defs[found.value].name == name && defs[found.value].version == latest[name])
    {
      found := None;
      if name in latest {
        assert HasVersion(defs, name, latest[name]);
      }
      if id :| id in defs && defs[id].name == name && defs[id].isActive {
        found := Some(id);
      }
    }

    /** A registration is rejected without effect for an unknown type or an empty step list.
        Otherwise it adds the next version of the name as the only active one and writes the rows
        of its steps; definitions of other names and all earlier step rows stay as they are. */
    method RegisterWorkflow(name: string, workflowType: string, stepNames: seq<string>,
                            compensationStepNames: seq<string>, timeout: int, stepMaxAttempts: seq<int>)
      returns (outcome: Outcome)
      requires Valid()
      modifies this
      ensures Valid()
      ensures outcome.Rejected? <==> !ValidType(workflowType) || stepNames == []
      ensures outcome.Rejected? ==>
                outcome.reason == if workflowType in {"CHAIN", "INDEPENDENT", "SAGA"} then NoSteps else InvalidType
      ensures outcome.Rejected? ==> defs == old(defs) && stepRows == old(stepRows) && latest == old(latest)
      ensures outcome.Registered? ==>
                latest == old(latest)[name := if name in old(latest) then old(latest[name]) + 1 else 1]
      ensures outcome.Registered? ==> (
        && Supersedes(defs, old(defs), outcome.id, Definition(name, workflowType, latest[name], |stepNames|, true))
        && outcome.id !in old(stepRows)
        && (exists rows :: StepRowsOf(rows, stepNames, compensationStepNames, timeout, stepMaxAttempts)
                           && stepRows == old(stepRows)[outcome.id := rows]))
    {
      if !ValidType(workflowType) { return Rejected(InvalidType); }
      if |stepNames| == 0 { return Rejected(NoSteps); }

      hide TablesOk, Supersedes, VersionsTo, WellFormed, NoOwnQueues, StepAt, StepRow, ValidType;
      var existing := GetByName(name);
      var nextVersion := 1;
      if existing.Some? {
        nextVersion := defs[existing.value].version + 1;
        defs := defs[existing.value := defs[existing.value].(isActive := false)];
      }
      var d := Definition(name, workflowType, nextVersion, |stepNames|, true);
      var id := nextId;
      nextId := nextId + 1;
      defs := defs[id := d];
      assert defs == Superseded(old(defs), existing, id, d);
      hide Superseded;
      var rows := CreateSteps(stepNames, compensationStepNames, timeout, stepMaxAttempts);
      hide StepRowsOf, DefinitionOk;
      assert DefinitionOk(d, rows);
      TablesStayOk(old(defs), stepRows, id, latest, existing, d, rows);
      stepRows := stepRows[id := rows];
      latest := latest[name := nextVersion];
      outcome := Registered(id);
    }
  }
}
