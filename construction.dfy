/**
 * Phenotype construction as a sequence of store and filesystem writes. The handlers perform these
 * writes one after the other without a transaction: a failing write ends the request and every
 * write before it stays in place. `Run(init, plan[..k])` is the state a handler leaves behind when
 * its k-th write fails.
 */
module Construction {
  import opened WorkflowStore

  /** One write of a phenotype construction. */
  datatype Action =
    | NewWorkflow(workflow: WorkflowRow)
    | NewFolder
    | NewStep(name: string, doc: string, stepType: StepType, position: int)
    | NewInput(doc: string)
    | NewOutput(doc: string, extension: string)
    | NewScript(fileName: string, content: string)
    | NewImplementation(fileName: string, language: string)

  /**
   * The store and the uploads folder, with the request-scoped `workflow_id` and `step_id`
   * variables that child rows are attached to.
   */
  datatype Build = Build(db: Db, fs: Fs, workflowId: Id, stepId: Id)

  /** The fixed text of one created step: its row, its input's and output's doc, and its script. */
  datatype StepInfo = StepInfo(
    name: string, doc: string, stepType: StepType, position: int,
    inputDoc: string, outputDoc: string, fileName: string)

  /**
   * Step `sid` of workflow `wid` is the step `s` describes, with exactly one input, one csv output and
   * one python implementation, at the three ids after its own.
   */
  ghost predicate HasStep(db: Db, sid: Id, wid: Id, s: StepInfo) {
    && sid in db.steps && db.steps[sid] == StepRow(wid, s.name, s.doc, s.stepType, s.position)
    && InputsOf(db, sid) == {sid + 1} && db.inputs[sid + 1] == InputRow(sid, s.inputDoc)
    && OutputsOf(db, sid) == {sid + 2} && db.outputs[sid + 2] == OutputRow(sid, s.outputDoc, "csv")
    && ImplementationsOf(db, sid) == {sid + 3}
    && db.implementations[sid + 3] == ImplementationRow(sid, s.fileName, "python")
  }

  /** Every step and every child row points below the counter. */
  predicate ChildrenBelow(db: Db) {
    && (forall id :: id in db.steps ==> id < db.nextId)
    && (forall id :: id in db.inputs ==> id < db.nextId && db.inputs[id].stepId < db.nextId)
    && (forall id :: id in db.outputs ==> id < db.nextId && db.outputs[id].stepId < db.nextId)
    && (forall id :: id in db.implementations ==> id < db.nextId && db.implementations[id].stepId < db.nextId)
  }

  lemma ValidChildrenBelow(db: Db)
    requires Valid(db)
    ensures ChildrenBelow(db) && forall wid :: wid !in db.workflows ==> StepsOf(db, wid) == {}
  {
  }

  /** The effect of one successful write. */
  function Apply(b: Build, a: Action): Build {
    match a
    case NewWorkflow(w) =>
      b.(db := InsertWorkflow(b.db, w), workflowId := b.db.nextId)
    case NewFolder =>
      b.(fs := b.fs.(folders := b.fs.folders + {b.workflowId}))
    case NewStep(name, doc, t, position) =>
      b.(db := InsertStep(b.db, StepRow(b.workflowId, name, doc, t, position)), stepId := b.db.nextId)
    case NewInput(doc) =>
      b.(db := InsertInput(b.db, InputRow(b.stepId, doc)))
    case NewOutput(doc, extension) =>
      b.(db := InsertOutput(b.db, OutputRow(b.stepId, doc, extension)))
    case NewScript(fileName, content) =>
      b.(fs := b.fs.(scripts := b.fs.scripts[(b.workflowId, fileName) := content]))
    case NewImplementation(fileName, language) =>
      b.(db := InsertImplementation(b.db, ImplementationRow(b.stepId, fileName, language)))
  }

  /** The effect of a sequence of successful writes, in order. */
  function Run(b: Build, acts: seq<Action>): Build
    decreases |acts|
  {
    if acts == [] then b else Run(Apply(b, acts[0]), acts[1..])
  }

  lemma {:induction false} RunAppend(b: Build, xs: seq<Action>, ys: seq<Action>)
    ensures Run(b, xs + ys) == Run(Run(b, xs), ys)
    decreases |xs|
  {
    if xs == [] {
      assert xs + ys == ys;
    } else {
      assert (xs + ys)[1..] == xs[1..] + ys;
      RunAppend(Apply(b, xs[0]), xs[1..], ys);
    }
  }

  /** One more successful write extends the state of the writes before it. */
  lemma RunNext(b: Build, plan: seq<Action>, i: nat)
    requires i < |plan|
    ensures Run(b, plan[..i + 1]) == Apply(Run(b, plan[..i]), plan[i])
  {
    assert plan[..i + 1] == plan[..i] + [plan[i]];
    RunAppend(b, plan[..i], [plan[i]]);
  }

  lemma RunCons(b: Build, a: Action, rest: seq<Action>)
    ensures Run(b, [a] + rest) == Run(Apply(b, a), rest)
  {
    assert ([a] + rest)[1..] == rest;
  }

  /** Every row id is below the counter, so a new row never lands on an existing one. */
  predicate KeysBelow(db: Db) {
    && (forall id :: id in db.workflows ==> id < db.nextId)
    && (forall id :: id in db.steps ==> id < db.nextId)
    && (forall id :: id in db.inputs ==> id < db.nextId)
    && (forall id :: id in db.outputs ==> id < db.nextId)
    && (forall id :: id in db.implementations ==> id < db.nextId)
  }

  /** Every row of db is still in db2, unchanged, and the set of completed workflows is the same. */
  predicate Keeps(db: Db, db2: Db) {
    && (forall id :: id in db.workflows ==> id in db2.workflows && db2.workflows[id] == db.workflows[id])
    && (forall id :: id in db.steps ==> id in db2.steps && db2.steps[id] == db.steps[id])
    && (forall id :: id in db.inputs ==> id in db2.inputs && db2.inputs[id] == db.inputs[id])
    && (forall id :: id in db.outputs ==> id in db2.outputs && db2.outputs[id] == db.outputs[id])
    && (forall id :: id in db.implementations ==> id in db2.implementations && db2.implementations[id] == db.implementations[id])
    && db2.completed == db.completed
    && db.nextId <= db2.nextId
  }

  lemma ApplyKeeps(b: Build, a: Action)
    requires KeysBelow(b.db)
    ensures KeysBelow(Apply(b, a).db) && Keeps(b.db, Apply(b, a).db)
  {
  }

  /** Writes only add rows: nothing written before is removed or changed, and nothing is marked complete. */
  lemma {:induction false} RunKeeps(b: Build, acts: seq<Action>)
    requires KeysBelow(b.db)
    ensures KeysBelow(Run(b, acts).db) && Keeps(b.db, Run(b, acts).db)
    decreases |acts|
  {
    if acts != [] {
      ApplyKeeps(b, acts[0]);
      RunKeeps(Apply(b, acts[0]), acts[1..]);
    }
  }

  /** A longer prefix of the same writes keeps everything a shorter prefix wrote. */
  lemma PrefixKeeps(b: Build, plan: seq<Action>, i: nat, k: nat)
    requires i <= k <= |plan| && KeysBelow(b.db)
    ensures Keeps(Run(b, plan[..i]).db, Run(b, plan[..k]).db)
  {
    assert plan[..k] == plan[..i] + plan[i..k];
    RunAppend(b, plan[..i], plan[i..k]);
    RunKeeps(b, plan[..i]);
    RunKeeps(Run(b, plan[..i]), plan[i..k]);
  }

  /**
   * One row write of a step block: `step.create`, `input.create`, `output.create` or
   * `implementation.create`, attached to the request's workflow and step ids.
   */
  method WriteRow(store: Store, a: Action, wid: Id, stepId: Id, ok: bool, ghost b: Build)
    returns (success: bool, id: Id)
    requires b.db == store.State() && b.workflowId == wid
    requires a.NewStep? ==> wid in store.workflows
    requires a.NewInput? || a.NewOutput? || a.NewImplementation? ==> b.stepId == stepId && stepId in store.steps
    requires a.NewStep? || a.NewInput? || a.NewOutput? || a.NewImplementation?
    modifies store
    ensures success == ok
    ensures success ==> Apply(b, a) == Build(store.State(), b.fs, wid, if a.NewStep? then id else b.stepId)
    ensures success && a.NewStep? ==> id in store.steps
    ensures !success ==> store.State() == b.db
    ensures wid in old(store.workflows) ==> wid in store.workflows
    ensures !a.NewStep? ==> id == stepId
  {
    id := stepId;
    match a
    case NewStep(name, doc, t, position) =>
      var r := store.CreateStep(StepRow(wid, name, doc, t, position), ok);
      success := r.Success?;
      if success {
        id := r.value;
      }
    case NewInput(doc) =>
      var r := store.CreateInput(InputRow(stepId, doc), ok);
      success := r.Success?;
    case NewOutput(doc, extension) =>
      var r := store.CreateOutput(OutputRow(stepId, doc, extension), ok);
      success := r.Success?;
    case NewImplementation(fileName, language) =>
      var r := store.CreateImplementation(ImplementationRow(stepId, fileName, language), ok);
      success := r.Success?;
  }

  /** The store holds exactly the rows of `b`, whose workflow id is `wid`, and that workflow exists. */
  ghost predicate Tracks(store: Store, b: Build, wid: Id)
    reads store
  {
    b.db == store.State() && b.workflowId == wid && wid in store.workflows
  }

  /**
   * Row write `i` of a plan: performs it, failing exactly where the oracle says, and keeps the store
   * in step with the effect of the plan's writes so far.
   */
  method PlanWriteRow(
    store: Store, a: Action, wid: Id, stepId: Id, fault: Fault, i: nat, ghost init: Build, ghost plan: seq<Action>)
    returns (ok: bool, id: Id)
    requires i < |plan| && plan[i] == a
    requires a.NewStep? || a.NewInput? || a.NewOutput? || a.NewImplementation?
    requires Tracks(store, Run(init, plan[..i]), wid)
    requires !a.NewStep? ==> Run(init, plan[..i]).stepId == stepId && stepId in store.steps
    modifies store
    ensures ok == !FailsAt(fault, i)
    ensures ok ==> Tracks(store, Run(init, plan[..i + 1]), wid)
    ensures ok ==> Run(init, plan[..i + 1]).stepId == id && id in store.steps
    ensures !ok ==> Tracks(store, Run(init, plan[..i]), wid)
  {
    ghost var b := Run(init, plan[..i]);
    ok, id := WriteRow(store, a, wid, stepId, !FailsAt(fault, i), b);
    if ok {
      RunNext(init, plan, i);
    }
  }

  /** One write of a scripted step block: a row write, or `fs.writeFile` of the filled-in script. */
  method Write(store: Store, uploads: Uploads, a: Action, wid: Id, stepId: Id, ok: bool, ghost b: Build)
    returns (success: bool, id: Id)
    requires b.db == store.State() && b.fs == uploads.State() && b.workflowId == wid
    requires a.NewStep? ==> wid in store.workflows
    requires a.NewInput? || a.NewOutput? || a.NewImplementation? ==> b.stepId == stepId && stepId in store.steps
    requires a.NewScript? ==> wid in uploads.folders
    requires !a.NewWorkflow? && !a.NewFolder?
    modifies store, uploads
    ensures success == ok
    ensures success ==> Apply(b, a) == Build(store.State(), uploads.State(), wid, if a.NewStep? then id else b.stepId)
    ensures success && a.NewStep? ==> id in store.steps
    ensures !success ==> store.State() == b.db && uploads.State() == b.fs
    ensures wid in old(store.workflows) ==> wid in store.workflows
    ensures wid in old(uploads.folders) ==> wid in uploads.folders
    ensures !a.NewStep? ==> id == stepId
  {
    if a.NewScript? {
      id := stepId;
      success := uploads.WriteScript(wid, a.fileName, a.content, ok);
    } else {
      success, id := WriteRow(store, a, wid, stepId, ok, b);
    }
  }

  /** Like `Tracks`, and the uploads folder holds exactly the files of `b`, including the workflow's folder. */
  ghost predicate TracksAll(store: Store, uploads: Uploads, b: Build, wid: Id)
    reads store, uploads
  {
    Tracks(store, b, wid) && b.fs == uploads.State() && wid in uploads.folders
  }

  /** Write `i` of a plan that also writes scripts: `PlanWriteRow` over both the store and the uploads folder. */
  method PlanWrite(
    store: Store, uploads: Uploads, a: Action, wid: Id, stepId: Id, fault: Fault, i: nat,
    ghost init: Build, ghost plan: seq<Action>)
    returns (ok: bool, id: Id)
    requires i < |plan| && plan[i] == a
    requires !a.NewWorkflow? && !a.NewFolder?
    requires TracksAll(store, uploads, Run(init, plan[..i]), wid)
    requires !a.NewStep? ==> Run(init, plan[..i]).stepId == stepId && stepId in store.steps
    modifies store, uploads
    ensures ok == !FailsAt(fault, i)
    ensures ok ==> TracksAll(store, uploads, Run(init, plan[..i + 1]), wid)
    ensures ok ==> Run(init, plan[..i + 1]).stepId == id && id in store.steps
    ensures !ok ==> TracksAll(store, uploads, Run(init, plan[..i]), wid)
  {
    ghost var b := Run(init, plan[..i]);
    ok, id := Write(store, uploads, a, wid, stepId, !FailsAt(fault, i), b);
    if ok {
      RunNext(init, plan, i);
    }
  }

  /** The one call of a request that the failure oracle makes fail, if any. */
  datatype Fault = NoFault | FindFails | DestroyFails | BuildFails(at: nat)

  /** Whether the oracle fails the write at index i of the construction plan. */
  predicate FailsAt(fault: Fault, i: nat) {
    fault == BuildFails(i)
  }
}
