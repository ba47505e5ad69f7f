/**
 * The relational store behind the route handlers (the Sequelize models `workflow`, `step`, `input`,
 * `output` and `implementation`) and the `uploads` folder the handlers write scripts and datasets to.
 * Each call into the store can fail; the caller passes the answer of a failure oracle as `ok`.
 */
module WorkflowStore {
  import opened Wrappers

  type Id = nat
  type Bytes = seq<bv8>

  datatype StepType = Load | Logic | Output

  datatype WorkflowRow = WorkflowRow(name: string, about: string, userName: string)
  datatype StepRow = StepRow(workflowId: Id, name: string, doc: string, stepType: StepType, position: int)
  datatype InputRow = InputRow(stepId: Id, doc: string)
  datatype OutputRow = OutputRow(stepId: Id, doc: string, extension: string)
  datatype ImplementationRow = ImplementationRow(stepId: Id, fileName: string, language: string)

  /**
   * The tables, keyed by row id, the workflows marked complete, and the next id to hand out.
   * Ids come from one store-wide counter.
   */
  datatype Db = Db(
    workflows: map<Id, WorkflowRow>,
    steps: map<Id, StepRow>,
    inputs: map<Id, InputRow>,
    outputs: map<Id, OutputRow>,
    implementations: map<Id, ImplementationRow>,
    completed: set<Id>,
    nextId: Id)

  datatype StoreError = QueryFailed | DanglingReference

  /** Every id was handed out by the counter, and every child row has its parent. */
  ghost predicate Valid(db: Db) {
    && (forall id :: id in db.workflows ==> id < db.nextId)
    && (forall id :: id in db.steps ==> id < db.nextId && db.steps[id].workflowId in db.workflows)
    && (forall id :: id in db.inputs ==> id < db.nextId && db.inputs[id].stepId in db.steps)
    && (forall id :: id in db.outputs ==> id < db.nextId && db.outputs[id].stepId in db.steps)
    && (forall id :: id in db.implementations ==> id < db.nextId && db.implementations[id].stepId in db.steps)
    && db.completed <= db.workflows.Keys
  }

  /** `findAll({where: {name}})`: the ids of the workflows with that name. */
  function Named(db: Db, name: string): set<Id> {
    set id | id in db.workflows && db.workflows[id].name == name
  }

  function InsertWorkflow(db: Db, w: WorkflowRow): Db {
    db.(workflows := db.workflows[db.nextId := w], nextId := db.nextId + 1)
  }

  function InsertStep(db: Db, s: StepRow): Db {
    db.(steps := db.steps[db.nextId := s], nextId := db.nextId + 1)
  }

  function InsertInput(db: Db, i: InputRow): Db {
    db.(inputs := db.inputs[db.nextId := i], nextId := db.nextId + 1)
  }

  function InsertOutput(db: Db, o: OutputRow): Db {
    db.(outputs := db.outputs[db.nextId := o], nextId := db.nextId + 1)
  }

  function InsertImplementation(db: Db, m: ImplementationRow): Db {
    db.(implementations := db.implementations[db.nextId := m], nextId := db.nextId + 1)
  }

  /** Step sid belongs to a workflow with that name, so the cascade removes it. */
  predicate DestroyedStep(db: Db, name: string, sid: Id) {
    sid in db.steps && db.steps[sid].workflowId in Named(db, name)
  }

  /**
   * `workflow.destroy({where: {name}})` with the cascade the schema declares: a step goes with its
   * workflow, and inputs, outputs and implementations go with their step.
   */
  function DestroyNamed(db: Db, name: string): (r: Db)
    ensures Named(r, name) == {}
    ensures forall id :: id in r.workflows <==> id in db.workflows && db.workflows[id].name != name
    ensures forall id :: id in r.workflows ==> r.workflows[id] == db.workflows[id]
    ensures forall id :: id in r.steps <==> id in db.steps && db.steps[id].workflowId !in Named(db, name)
    ensures forall id :: id in r.steps ==> r.steps[id] == db.steps[id]
    ensures forall id :: id in r.inputs <==> id in db.inputs && !DestroyedStep(db, name, db.inputs[id].stepId)
    ensures forall id :: id in r.inputs ==> r.inputs[id] == db.inputs[id]
    ensures forall id :: id in r.outputs <==> id in db.outputs && !DestroyedStep(db, name, db.outputs[id].stepId)
    ensures forall id :: id in r.outputs ==> r.outputs[id] == db.outputs[id]
    ensures forall id :: id in r.implementations <==> id in db.implementations && !DestroyedStep(db, name, db.implementations[id].stepId)
    ensures forall id :: id in r.implementations ==> r.implementations[id] == db.implementations[id]
    ensures r.completed == db.completed - Named(db, name)
    ensures r.nextId == db.nextId
  {
    var gone := Named(db, name);
    var goneSteps := set id | id in db.steps && db.steps[id].workflowId in gone;
    Db(
      map id | id in db.workflows && id !in gone :: db.workflows[id],
      map id | id in db.steps && id !in goneSteps :: db.steps[id],
      map id | id in db.inputs && db.inputs[id].stepId !in goneSteps :: db.inputs[id],
      map id | id in db.outputs && db.outputs[id].stepId !in goneSteps :: db.outputs[id],
      map id | id in db.implementations && db.implementations[id].stepId !in goneSteps :: db.implementations[id],
      db.completed - gone,
      db.nextId)
  }

  /** The cascade leaves no row without its parent. */
  lemma DestroyKeepsValid(db: Db, name: string)
    requires Valid(db)
    ensures Valid(DestroyNamed(db, name))
  {
  }

  /** After the cascade no row of any kind hangs from a workflow with the destroyed name. */
  lemma DestroyLeavesNoDescendant(db: Db, name: string)
    requires Valid(db)
    ensures var r := DestroyNamed(db, name);
      && (forall id :: id in r.steps ==> r.steps[id].workflowId in r.workflows)
      && (forall id :: id in r.inputs ==> db.steps[r.inputs[id].stepId].workflowId !in Named(db, name))
      && (forall id :: id in r.outputs ==> db.steps[r.outputs[id].stepId].workflowId !in Named(db, name))
      && (forall id :: id in r.implementations ==> db.steps[r.implementations[id].stepId].workflowId !in Named(db, name))
  {
  }

  function StepsOf(db: Db, wid: Id): set<Id> {
    set id | id in db.steps && db.steps[id].workflowId == wid
  }

  function InputsOf(db: Db, sid: Id): set<Id> {
    set id | id in db.inputs && db.inputs[id].stepId == sid
  }

  function OutputsOf(db: Db, sid: Id): set<Id> {
    set id | id in db.outputs && db.outputs[id].stepId == sid
  }

  function ImplementationsOf(db: Db, sid: Id): set<Id> {
    set id | id in db.implementations && db.implementations[id].stepId == sid
  }

  /** The store without the workflows of that name, if there are any. */
  function Cleared(db: Db, name: string): (r: Db)
    ensures Named(r, name) == {} && r.nextId == db.nextId
  {
    if Named(db, name) != {} then DestroyNamed(db, name) else db
  }

  lemma ClearedValid(db: Db, name: string)
    requires Valid(db)
    ensures Valid(Cleared(db, name))
  {
    if Named(db, name) != {} {
      DestroyKeepsValid(db, name);
    }
  }

  /** The workflows' uploads folders: scripts under `uploads/<id>/python`, datasets under `uploads/<id>/datasets`. */
  datatype Fs = Fs(
    folders: set<Id>,
    datasetFolders: set<Id>,
    scripts: map<(Id, string), string>,
    datasets: map<(Id, string), Bytes>)

  class Store {
    var workflows: map<Id, WorkflowRow>
    var steps: map<Id, StepRow>
    var inputs: map<Id, InputRow>
    var outputs: map<Id, OutputRow>
    var implementations: map<Id, ImplementationRow>
    var completed: set<Id>
    var nextId: Id

    function State(): Db
      reads this
    {
      Db(workflows, steps, inputs, outputs, implementations, completed, nextId)
    }

    constructor ()
      ensures State() == Db(map[], map[], map[], map[], map[], {}, 0)
      ensures Valid(State())
    {
      workflows, steps, inputs, outputs, implementations := map[], map[], map[], map[], map[];
      completed, nextId := {}, 0;
    }

    /** `workflow.findOne({where: {name}})`: some workflow with that name, or none. */
    method FindOne(name: string, ok: bool) returns (r: Result<Option<Id>, StoreError>)
      ensures !ok ==> r == Failure(QueryFailed)
      ensures ok ==> r.Success? && (r.value.Some? <==> Named(State(), name) != {})
      ensures ok && r.value.Some? ==> r.value.value in Named(State(), name)
    {
      if !ok {
        return Failure(QueryFailed);
      }
      if exists id :: id in workflows && workflows[id].name == name {
        var id :| id in workflows && workflows[id].name == name;
        assert id in Named(State(), name);
        r := Success(Some(id));
      } else {
        assert Named(State(), name) == {};
        r := Success(None);
      }
    }

    /** `workflow.destroy({where: {name}})`: returns the number of workflows removed. */
    method Destroy(name: string, ok: bool) returns (r: Result<nat, StoreError>)
      modifies this
      ensures r == if ok then Success(|Named(old(State()), name)|) else Failure(QueryFailed)
      ensures State() == if ok then DestroyNamed(old(State()), name) else old(State())
    {
      if !ok {
        return Failure(QueryFailed);
      }
      r := Success(|Named(State(), name)|);
      var d := DestroyNamed(State(), name);
      workflows, steps, inputs, outputs, implementations := d.workflows, d.steps, d.inputs, d.outputs, d.implementations;
      completed := d.completed;
    }

    method CreateWorkflow(w: WorkflowRow, ok: bool) returns (r: Result<Id, StoreError>)
      modifies this
      ensures r == if ok then Success(old(nextId)) else Failure(QueryFailed)
      ensures State() == if ok then InsertWorkflow(old(State()), w) else old(State())
    {
      if !ok {
        return Failure(QueryFailed);
      }
      r := Success(nextId);
      workflows := workflows[nextId := w];
      nextId := nextId + 1;
    }

    /** A step row whose workflow does not exist breaks the foreign key and is refused. */
    method CreateStep(s: StepRow, ok: bool) returns (r: Result<Id, StoreError>)
      modifies this
      ensures r == if !ok then Failure(QueryFailed)
                   else if s.workflowId !in old(workflows) then Failure(DanglingReference)
                   else Success(old(nextId))
      ensures State() == if r.Success? then InsertStep(old(State()), s) else old(State())
    {
      if !ok {
        return Failure(QueryFailed);
      }
      if s.workflowId !in workflows {
        return Failure(DanglingReference);
      }
      r := Success(nextId);
      steps := steps[nextId := s];
      nextId := nextId + 1;
    }

    method CreateInput(i: InputRow, ok: bool) returns (r: Result<Id, StoreError>)
      modifies this
      ensures r == if !ok then Failure(QueryFailed)
                   else if i.stepId !in old(steps) then Failure(DanglingReference)
                   else Success(old(nextId))
      ensures State() == if r.Success? then InsertInput(old(State()), i) else old(State())
    {
      if !ok {
        return Failure(QueryFailed);
      }
      if i.stepId !in steps {
        return Failure(DanglingReference);
      }
      r := Success(nextId);
      inputs := inputs[nextId := i];
      nextId := nextId + 1;
    }

    method CreateOutput(o: OutputRow, ok: bool) returns (r: Result<Id, StoreError>)
      modifies this
      ensures r == if !ok then Failure(QueryFailed)
                   else if o.stepId !in old(steps) then Failure(DanglingReference)
                   else Success(old(nextId))
      ensures State() == if r.Success? then InsertOutput(old(State()), o) else old(State())
    {
      if !ok {
        return Failure(QueryFailed);
      }
      if o.stepId !in steps {
        return Failure(DanglingReference);
      }
      r := Success(nextId);
      outputs := outputs[nextId := o];
      nextId := nextId + 1;
    }

    method CreateImplementation(m: ImplementationRow, ok: bool) returns (r: Result<Id, StoreError>)
      modifies this
      ensures r == if !ok then Failure(QueryFailed)
                   else if m.stepId !in old(steps) then Failure(DanglingReference)
                   else Success(old(nextId))
      ensures State() == if r.Success? then InsertImplementation(old(State()), m) else old(State())
    {
      if !ok {
        return Failure(QueryFailed);
      }
      if m.stepId !in steps {
        return Failure(DanglingReference);
      }
      r := Success(nextId);
      implementations := implementations[nextId := m];
      nextId := nextId + 1;
    }

    /** `WorkflowUtils.workflowComplete(id)`: the workflow is recorded as finished. */
    method WorkflowComplete(id: Id)
      modifies this
      ensures State() == old(State()).(completed := old(completed) + {id})
    {
      completed := completed + {id};
    }
  }

  class Uploads {
    var folders: set<Id>
    var datasetFolders: set<Id>
    var scripts: map<(Id, string), string>
    var datasets: map<(Id, string), Bytes>

    function State(): Fs
      reads this
    {
      Fs(folders, datasetFolders, scripts, datasets)
    }

    constructor ()
      ensures State() == Fs({}, {}, map[], map[])
    {
      folders, datasetFolders, scripts, datasets := {}, {}, map[], map[];
    }

    /** `fs.stat` on `uploads/<id>/python`, then `fs.mkdir(..., {recursive: true})` when it is missing. */
    method MakeFolder(id: Id, ok: bool) returns (success: bool)
      modifies this
      ensures success == (id in old(folders) || ok)
      ensures State() == if success then old(State()).(folders := old(folders) + {id}) else old(State())
    {
      if id in folders {
        return true;
      }
      if !ok {
        return false;
      }
      folders := folders + {id};
      success := true;
    }

    /** Read a script template and `fs.writeFile` its materialised text to `uploads/<id>/python/<fileName>`. */
    method WriteScript(id: Id, fileName: string, content: string, ok: bool) returns (success: bool)
      modifies this
      ensures success == (ok && id in old(folders))
      ensures State() == if success then old(State()).(scripts := old(scripts)[(id, fileName) := content]) else old(State())
    {
      if !ok || id !in folders {
        return false;
      }
      scripts := scripts[(id, fileName) := content];
      success := true;
    }

    /** `fs.stat` on `uploads/<id>/datasets`, then `fs.mkdir` when it is missing. */
    method MakeDatasetFolder(id: Id, ok: bool) returns (success: bool)
      modifies this
      ensures success == (id in old(datasetFolders) || ok)
      ensures State() == if success then old(State()).(datasetFolders := old(datasetFolders) + {id}) else old(State())
    {
      if id in datasetFolders {
        return true;
      }
      if !ok {
        return false;
      }
      datasetFolders := datasetFolders + {id};
      success := true;
    }

    /** `uploadedFile.mv(uploads/<id>/datasets/<name>)`: creates or overwrites the dataset. */
    method MoveDataset(id: Id, name: string, content: Bytes, ok: bool) returns (success: bool)
      modifies this
      ensures success == (ok && id in old(datasetFolders))
      ensures State() == if success then old(State()).(datasets := old(datasets)[(id, name) := content]) else old(State())
    {
      if !ok || id !in datasetFolders {
        return false;
      }
      datasets := datasets[(id, name) := content];
      success := true;
    }
  }
}
