/**
 * The Decision Tree Classifier routes: `addPhenotype`, which validates the form, applies the
 * replace/conflict rule, then builds a workflow of three steps (each with an input, a csv output, a
 * materialised script and its implementation row) and marks it complete; and `uploadCsvDataset`.
 */
module DecisionTreeClassifier {
  import opened Wrappers
  import opened Text
  import opened Templates
  import opened WorkflowStore
  import opened Construction
  import opened Requests

  datatype Request = Request(
    className: Option<string>,
    randomState: Option<string>,
    replace: Option<string>,
    name: Option<string>,
    about: Option<string>,
    userName: Option<string>)

  /** The foreign functions the handler calls: `Number.parseInt` (None for NaN) and `sanitizeHtml`. */
  datatype Env = Env(parseInt: string -> Option<int>, sanitize: string -> string)

  /** The contents of templates/DecisionTreeClassifier/step1.py, step2.py and step3.py. */
  datatype ScriptTemplates = ScriptTemplates(step1: string, step2: string, step3: string)

  /** A validated request. */
  datatype Params = Params(
    className: string, randomState: nat, replace: bool, name: string, about: string, userName: string)

  datatype Rejection = MissingParameters | BadRandomState | BadReplace

  datatype Response =
    | Ok
    | Rejected(reason: Rejection)
    | FindFailed
    | Conflict
    | DestroyFailed
    | BuildFailed(at: nat)

  predicate AllGiven(req: Request) {
    Given(req.className) && Given(req.randomState) && Given(req.replace)
    && Given(req.name) && Given(req.about) && Given(req.userName)
  }

  /** The checks made before the store is touched, in the handler's order. */
  function Validate(req: Request, parseInt: string -> Option<int>): (r: Result<Params, Rejection>)
    ensures r == Failure(MissingParameters) <==> !AllGiven(req)
    ensures r == Failure(BadRandomState) <==>
      AllGiven(req) && !(parseInt(req.randomState.value).Some? && parseInt(req.randomState.value).value >= 0)
    ensures r == Failure(BadReplace) <==>
      && AllGiven(req)
      && parseInt(req.randomState.value).Some? && parseInt(req.randomState.value).value >= 0
      && Lower(req.replace.value) != "true" && Lower(req.replace.value) != "false"
    ensures r.Success? <==>
      && AllGiven(req)
      && parseInt(req.randomState.value).Some? && parseInt(req.randomState.value).value >= 0
      && (Lower(req.replace.value) == "true" || Lower(req.replace.value) == "false")
    ensures r.Success? ==>
      && r.value.randomState == parseInt(req.randomState.value).value
      && r.value.replace == (Lower(req.replace.value) == "true")
      && r.value.className == req.className.value && r.value.name == req.name.value
      && r.value.about == req.about.value && r.value.userName == req.userName.value
  {
    if !AllGiven(req) then Failure(MissingParameters)
    else
      var rs := parseInt(req.randomState.value);
      if rs.None? || rs.value < 0 then Failure(BadRandomState)
      else match ParseReplace(req.replace.value)
        case None => Failure(BadReplace)
        case Some(replace) =>
          Success(Params(req.className.value, rs.value, replace, req.name.value, req.about.value, req.userName.value))
  }

  /** The three steps a Decision Tree Classifier phenotype consists of. */
  datatype Blueprint = Blueprint(step1: StepInfo, step2: StepInfo, step3: StepInfo)

  const Steps := Blueprint(
    StepInfo("step_1_load",
      "Read the initial datasets (train and test) from the .csv files. We suppose that these datasets are already preprocessed, without missing values and with the correct attributes. Remember that all attributes (except the class) must be numeric.",
      Load, 1,
      "The train and test datasets (in .csv format). We suppose that these datasets are already preprocessed, without missing values and with the correct attributes. Remember that all attributes (except the class) must be numeric.",
      "The same .csv files, since the datasets are already preprocessed and in csv format.",
      "step1.py"),
    StepInfo("step_2_execute_ml_technique",
      "Read the csv datasets and execute the corresponding ML technique in order to obtain predictions and the ML model.",
      Logic, 2,
      "The train and test datasets (in .csv format) generated in the previous steps in order to obtain predictions and the ML model.",
      "The train and test datasets with a new attribute (the predictions) and the ML model in pickle format.",
      "step2.py"),
    StepInfo("step_3_output",
      "Write the train and test datasets with predictions (in csv format) and the model in pickle format.",
      Output, 3,
      "The train and test datasets with predictions (in csv format) and the model in pickle format.",
      "The train and test datasets with predictions (in csv format) and the model in pickle format.",
      "step3.py"))

  /** A step with one input, one csv output, a materialised python script and its implementation row. */
  function ScriptedStep(s: StepInfo, content: string): seq<Action> {
    [NewStep(s.name, s.doc, s.stepType, s.position), NewInput(s.inputDoc), NewOutput(s.outputDoc, "csv"),
     NewScript(s.fileName, content), NewImplementation(s.fileName, "python")]
  }

  /**
   * The writes of a construction, for a workflow that will receive id `wid`: steps 1 and 3 get the
   * name/id substitution, step 2 the class name/random state one.
   */
  function Plan(p: Params, userName: string, wid: Id, t: ScriptTemplates, bp: Blueprint): seq<Action> {
    [NewWorkflow(WorkflowRow(p.name, p.about, userName)), NewFolder]
    + ScriptedStep(bp.step1, MaterializeNameId(t.step1, p.name, wid))
    + ScriptedStep(bp.step2, MaterializeClassState(t.step2, p.className, p.randomState))
    + ScriptedStep(bp.step3, MaterializeNameId(t.step3, p.name, wid))
  }

  const PlanLength: nat := 17
  const FolderWrite: nat := 1

  /**
   * The index of the write that fails, or PlanLength when all succeed. The folder write consults
   * the oracle only when the folder does not exist yet.
   */
  function StopIndex(fault: Fault, folderExists: bool): nat {
    if fault.BuildFails? && fault.at < PlanLength && !(fault.at == FolderWrite && folderExists)
    then fault.at else PlanLength
  }

  datatype Outcome = Outcome(response: Response, db: Db, fs: Fs)

  /**
   * The construction after the replace rule: the writes of the plan up to the first failing one,
   * and the completion mark when none fails.
   */
  function ConstructSpec(
    db: Db, fs: Fs, p: Params, userName: string, t: ScriptTemplates, bp: Blueprint, fault: Fault): Outcome
  {
    var plan := Plan(p, userName, db.nextId, t, bp);
    var k := StopIndex(fault, db.nextId in fs.folders);
    var b := Run(Build(db, fs, 0, 0), plan[..k]);
    if k < PlanLength then Outcome(BuildFailed(k), b.db, b.fs)
    else Outcome(Ok, b.db.(completed := b.db.completed + {db.nextId}), b.fs)
  }

  /**
   * What `addPhenotype` answers and leaves in the store and the uploads folder, for a handler that
   * creates the steps of `bp` (the route creates `Steps`).
   */
  ghost function AddPhenotypeSpec(
    db: Db, fs: Fs, req: Request, env: Env, t: ScriptTemplates, bp: Blueprint, fault: Fault): Outcome
  {
    match Validate(req, env.parseInt)
    case Failure(e) => Outcome(Rejected(e), db, fs)
    case Success(p) =>
      var named := Named(db, p.name) != {};
      if fault == FindFails then Outcome(FindFailed, db, fs)
      else if named && !p.replace then Outcome(Conflict, db, fs)
      else if named && fault == DestroyFails then Outcome(DestroyFailed, db, fs)
      else ConstructSpec(Cleared(db, p.name), fs, p, env.sanitize(p.userName), t, bp, fault)
  }

  /** Where the writes of each step sit in the plan. */
  lemma PlanBlocks(p: Params, userName: string, wid: Id, t: ScriptTemplates, bp: Blueprint)
    ensures var plan := Plan(p, userName, wid, t, bp);
      && |plan| == PlanLength
      && plan[0] == NewWorkflow(WorkflowRow(p.name, p.about, userName))
      && plan[FolderWrite] == NewFolder
      && plan[2..7] == ScriptedStep(bp.step1, MaterializeNameId(t.step1, p.name, wid))
      && plan[7..12] == ScriptedStep(bp.step2, MaterializeClassState(t.step2, p.className, p.randomState))
      && plan[12..17] == ScriptedStep(bp.step3, MaterializeNameId(t.step3, p.name, wid))
  {
  }

  /** The writes of a scripted step block, one by one. */
  lemma BlockWrites(plan: seq<Action>, first: nat, s: StepInfo, content: string)
    requires first + 5 <= |plan| && plan[first..first + 5] == ScriptedStep(s, content)
    ensures plan[first] == NewStep(s.name, s.doc, s.stepType, s.position)
    ensures plan[first + 1] == NewInput(s.inputDoc) && plan[first + 2] == NewOutput(s.outputDoc, "csv")
    ensures plan[first + 3] == NewScript(s.fileName, content)
    ensures plan[first + 4] == NewImplementation(s.fileName, "python")
  {
    assert plan[first..first + 5][0] == plan[first];
  }

  /**
   * Creates one scripted step and its children, the writes at index `first` of the plan; stops at
   * the first failing write.
   */
  method AddScriptedStep(
    store: Store, uploads: Uploads, wid: Id, s: StepInfo, content: string,
    first: nat, fault: Fault, ghost init: Build, ghost plan: seq<Action>)
    returns (stop: nat)
    requires first + 5 <= |plan| && plan[first..first + 5] == ScriptedStep(s, content)
    requires TracksAll(store, uploads, Run(init, plan[..first]), wid)
    modifies store, uploads
    ensures stop == if fault.BuildFails? && first <= fault.at < first + 5 then fault.at else first + 5
    ensures TracksAll(store, uploads, Run(init, plan[..stop]), wid)
  {
    BlockWrites(plan, first, s, content);
    var ok, stepId :=
      PlanWrite(store, uploads, NewStep(s.name, s.doc, s.stepType, s.position), wid, 0, fault, first, init, plan);
    if !ok {
      return first;
    }
    ok, stepId := PlanWrite(store, uploads, NewInput(s.inputDoc), wid, stepId, fault, first + 1, init, plan);
    if !ok {
      return first + 1;
    }
    ok, stepId := PlanWrite(store, uploads, NewOutput(s.outputDoc, "csv"), wid, stepId, fault, first + 2, init, plan);
    if !ok {
      return first + 2;
    }
    ok, stepId := PlanWrite(store, uploads, NewScript(s.fileName, content), wid, stepId, fault, first + 3, init, plan);
    if !ok {
      return first + 3;
    }
    ok, stepId :=
      PlanWrite(store, uploads, NewImplementation(s.fileName, "python"), wid, stepId, fault, first + 4, init, plan);
    if !ok {
      return first + 4;
    }
    stop := first + 5;
  }

  /** The three scripted steps of the plan, from write 2 on; stops at the first failing write. */
  method AddSteps(
    store: Store, uploads: Uploads, wid: Id, bp: Blueprint, content1: string, content2: string, content3: string,
    fault: Fault, ghost init: Build, ghost plan: seq<Action>)
    returns (stop: nat)
    requires |plan| == PlanLength
    requires plan[2..7] == ScriptedStep(bp.step1, content1)
    requires plan[7..12] == ScriptedStep(bp.step2, content2)
    requires plan[12..17] == ScriptedStep(bp.step3, content3)
    requires TracksAll(store, uploads, Run(init, plan[..2]), wid)
    modifies store, uploads
    ensures stop == if fault.BuildFails? && 2 <= fault.at < PlanLength then fault.at else PlanLength
    ensures TracksAll(store, uploads, Run(init, plan[..stop]), wid)
  {
    stop := AddScriptedStep(store, uploads, wid, bp.step1, content1, 2, fault, init, plan);
    if stop < 7 {
      return;
    }
    stop := AddScriptedStep(store, uploads, wid, bp.step2, content2, 7, fault, init, plan);
    if stop < 12 {
      return;
    }
    stop := AddScriptedStep(store, uploads, wid, bp.step3, content3, 12, fault, init, plan);
  }

  /** The writes of `addPhenotype` once the replace rule has been applied. */
  method Construct(
    store: Store, uploads: Uploads, p: Params, userName: string, t: ScriptTemplates, bp: Blueprint, fault: Fault)
    returns (res: Response)
    modifies store, uploads
    ensures Outcome(res, store.State(), uploads.State())
         == ConstructSpec(old(store.State()), old(uploads.State()), p, userName, t, bp, fault)
  {
    ghost var init := Build(store.State(), uploads.State(), 0, 0);
    ghost var plan := Plan(p, userName, store.nextId, t, bp);
    PlanBlocks(p, userName, store.nextId, t, bp);
    assert plan[..0] == [];

    var workflow := store.CreateWorkflow(WorkflowRow(p.name, p.about, userName), !FailsAt(fault, 0));
    if workflow.Failure? {
      return BuildFailed(0);
    }
    var wid := workflow.value;
    RunNext(init, plan, 0);

    var folder := uploads.MakeFolder(wid, !FailsAt(fault, FolderWrite));
    if !folder {
      return BuildFailed(FolderWrite);
    }
    RunNext(init, plan, 1);

    var stop := AddSteps(store, uploads, wid, bp, MaterializeNameId(t.step1, p.name, wid),
      MaterializeClassState(t.step2, p.className, p.randomState), MaterializeNameId(t.step3, p.name, wid),
      fault, init, plan);
    if stop < PlanLength {
      return BuildFailed(stop);
    }
    assert plan[..PlanLength] == plan;
    store.WorkflowComplete(wid);
    res := Ok;
  }

  /** `POST /DecisionTreeClassifier/addPhenotype`. */
  method AddPhenotype(
    store: Store, uploads: Uploads, req: Request, env: Env, t: ScriptTemplates, fault: Fault)
    returns (res: Response)
    modifies store, uploads
    ensures Outcome(res, store.State(), uploads.State())
         == AddPhenotypeSpec(old(store.State()), old(uploads.State()), req, env, t, Steps, fault)
  {
    var v := Validate(req, env.parseInt);
    if v.Failure? {
      return Rejected(v.error);
    }
    var p := v.value;

    var found := store.FindOne(p.name, fault != FindFails);
    if found.Failure? {
      return FindFailed;
    }
    if p.replace && found.value.Some? {
      var destroyed := store.Destroy(p.name, fault != DestroyFails);
      if destroyed.Failure? {
        return DestroyFailed;
      }
    } else if !p.replace && found.value.Some? {
      return Conflict;
    }
    res := Construct(store, uploads, p, env.sanitize(p.userName), t, Steps, fault);
  }

  /** The state after one scripted step's writes: four new rows with consecutive ids and one script. */
  function AfterStep(b: Build, s: StepInfo, content: string): (r: Build)
    ensures r.db.nextId == b.db.nextId + 4 && r.workflowId == b.workflowId
  {
    var n := b.db.nextId;
    b.(db := b.db.(steps := b.db.steps[n := StepRow(b.workflowId, s.name, s.doc, s.stepType, s.position)],
                   inputs := b.db.inputs[n + 1 := InputRow(n, s.inputDoc)],
                   outputs := b.db.outputs[n + 2 := OutputRow(n, s.outputDoc, "csv")],
                   implementations := b.db.implementations[n + 3 := ImplementationRow(n, s.fileName, "python")],
                   nextId := n + 4),
       fs := b.fs.(scripts := b.fs.scripts[(b.workflowId, s.fileName) := content]),
       stepId := n)
  }

  lemma ScriptedStepEffect(b: Build, s: StepInfo, content: string)
    ensures Run(b, ScriptedStep(s, content)) == AfterStep(b, s, content)
  {
    var block := ScriptedStep(s, content);
    RunCons(b, block[0], block[1..]);
    var b1 := Apply(b, block[0]);
    assert block[1..] == [block[1]] + block[2..];
    RunCons(b1, block[1], block[2..]);
    var b2 := Apply(b1, block[1]);
    assert block[2..] == [block[2]] + block[3..];
    RunCons(b2, block[2], block[3..]);
    var b3 := Apply(b2, block[2]);
    assert block[3..] == [block[3]] + block[4..];
    RunCons(b3, block[3], block[4..]);
    var b4 := Apply(b3, block[3]);
    assert block[4..] == [block[4]] + [];
    RunCons(b4, block[4], []);
  }

  /** The state after every write of the plan succeeded, before the completion mark. */
  function AfterPlan(db: Db, fs: Fs, p: Params, userName: string, t: ScriptTemplates, bp: Blueprint): Build {
    var n := db.nextId;
    var head := AfterHead(db, fs, p, userName);
    var s1 := AfterStep(head, bp.step1, MaterializeNameId(t.step1, p.name, n));
    var s2 := AfterStep(s1, bp.step2, MaterializeClassState(t.step2, p.className, p.randomState));
    AfterStep(s2, bp.step3, MaterializeNameId(t.step3, p.name, n))
  }

  lemma PlanEffect(db: Db, fs: Fs, p: Params, userName: string, t: ScriptTemplates, bp: Blueprint)
    ensures Run(Build(db, fs, 0, 0), Plan(p, userName, db.nextId, t, bp)) == AfterPlan(db, fs, p, userName, t, bp)
  {
    var n := db.nextId;
    var init := Build(db, fs, 0, 0);
    var c1 := MaterializeNameId(t.step1, p.name, n);
    var c2 := MaterializeClassState(t.step2, p.className, p.randomState);
    var c3 := MaterializeNameId(t.step3, p.name, n);
    var head := [NewWorkflow(WorkflowRow(p.name, p.about, userName)), NewFolder];
    var h := Run(init, head);
    assert head == [head[0]] + ([head[1]] + []);
    RunCons(init, head[0], [head[1]] + []);
    RunCons(Apply(init, head[0]), head[1], []);
    RunAppend(init, head, ScriptedStep(bp.step1, c1) + ScriptedStep(bp.step2, c2) + ScriptedStep(bp.step3, c3));
    RunAppend(h, ScriptedStep(bp.step1, c1) + ScriptedStep(bp.step2, c2), ScriptedStep(bp.step3, c3));
    RunAppend(h, ScriptedStep(bp.step1, c1), ScriptedStep(bp.step2, c2));
    ScriptedStepEffect(h, bp.step1, c1);
    ScriptedStepEffect(AfterStep(h, bp.step1, c1), bp.step2, c2);
    ScriptedStepEffect(AfterStep(AfterStep(h, bp.step1, c1), bp.step2, c2), bp.step3, c3);
    assert Plan(p, userName, n, t, bp) == head + (ScriptedStep(bp.step1, c1) + ScriptedStep(bp.step2, c2) + ScriptedStep(bp.step3, c3));
  }

  lemma AfterStepHas(b: Build, s: StepInfo, content: string)
    requires ChildrenBelow(b.db)
    ensures var r := AfterStep(b, s, content).db;
      && HasStep(r, b.db.nextId, b.workflowId, s) && ChildrenBelow(r)
      && StepsOf(r, b.workflowId) == StepsOf(b.db, b.workflowId) + {b.db.nextId}
  {
    var n := b.db.nextId;
    var r := AfterStep(b, s, content).db;
    assert InputsOf(r, n) == {n + 1};
    assert OutputsOf(r, n) == {n + 2};
    assert ImplementationsOf(r, n) == {n + 3};
  }

  lemma AfterStepKeepsHas(b: Build, s: StepInfo, content: string, sid: Id, wid: Id, s0: StepInfo)
    requires HasStep(b.db, sid, wid, s0) && sid < b.db.nextId
    ensures HasStep(AfterStep(b, s, content).db, sid, wid, s0)
  {
    var r := AfterStep(b, s, content).db;
    assert InputsOf(r, sid) == InputsOf(b.db, sid);
    assert OutputsOf(r, sid) == OutputsOf(b.db, sid);
    assert ImplementationsOf(r, sid) == ImplementationsOf(b.db, sid);
  }

  /** A successful construction is the whole plan followed by the completion mark. */
  lemma ConstructOk(db: Db, fs: Fs, p: Params, userName: string, t: ScriptTemplates, bp: Blueprint, fault: Fault)
    requires ConstructSpec(db, fs, p, userName, t, bp, fault).response == Ok
    ensures var a := AfterPlan(db, fs, p, userName, t, bp);
      ConstructSpec(db, fs, p, userName, t, bp, fault) == Outcome(Ok, a.db.(completed := a.db.completed + {db.nextId}), a.fs)
  {
    var plan := Plan(p, userName, db.nextId, t, bp);
    PlanBlocks(p, userName, db.nextId, t, bp);
    assert plan[..PlanLength] == plan;
    PlanEffect(db, fs, p, userName, t, bp);
  }

  /** The state after the workflow row and its folder, before any step. */
  function AfterHead(db: Db, fs: Fs, p: Params, userName: string): Build {
    var n := db.nextId;
    Build(db.(workflows := db.workflows[n := WorkflowRow(p.name, p.about, userName)], nextId := n + 1),
          fs.(folders := fs.folders + {n}), n, 0)
  }

  lemma HeadFacts(db: Db, fs: Fs, p: Params, userName: string)
    requires Valid(db)
    ensures var h := AfterHead(db, fs, p, userName);
      && ChildrenBelow(h.db) && StepsOf(h.db, db.nextId) == {}
      && h.workflowId == db.nextId && h.db.nextId == db.nextId + 1
  {
    ValidChildrenBelow(db);
    assert StepsOf(AfterHead(db, fs, p, userName).db, db.nextId) == {};
  }

  lemma FirstStepLayout(db: Db, fs: Fs, p: Params, userName: string, t: ScriptTemplates, bp: Blueprint)
    requires Valid(db)
    ensures HasStep(AfterPlan(db, fs, p, userName, t, bp).db, db.nextId + 1, db.nextId, bp.step1)
  {
    var n := db.nextId;
    var c1 := MaterializeNameId(t.step1, p.name, n);
    var c2 := MaterializeClassState(t.step2, p.className, p.randomState);
    var c3 := MaterializeNameId(t.step3, p.name, n);
    var head := AfterHead(db, fs, p, userName);
    HeadFacts(db, fs, p, userName);
    var s1 := AfterStep(head, bp.step1, c1);
    AfterStepHas(head, bp.step1, c1);
    AfterStepKeepsHas(s1, bp.step2, c2, n + 1, n, bp.step1);
    AfterStepKeepsHas(AfterStep(s1, bp.step2, c2), bp.step3, c3, n + 1, n, bp.step1);
  }

  lemma SecondStepLayout(db: Db, fs: Fs, p: Params, userName: string, t: ScriptTemplates, bp: Blueprint)
    requires Valid(db)
    ensures HasStep(AfterPlan(db, fs, p, userName, t, bp).db, db.nextId + 5, db.nextId, bp.step2)
  {
    var n := db.nextId;
    var c1 := MaterializeNameId(t.step1, p.name, n);
    var c2 := MaterializeClassState(t.step2, p.className, p.randomState);
    var c3 := MaterializeNameId(t.step3, p.name, n);
    var head := AfterHead(db, fs, p, userName);
    HeadFacts(db, fs, p, userName);
    var s1 := AfterStep(head, bp.step1, c1);
    AfterStepHas(head, bp.step1, c1);
    AfterStepHas(s1, bp.step2, c2);
    AfterStepKeepsHas(AfterStep(s1, bp.step2, c2), bp.step3, c3, n + 5, n, bp.step2);
  }

  lemma ThirdStepLayout(db: Db, fs: Fs, p: Params, userName: string, t: ScriptTemplates, bp: Blueprint)
    requires Valid(db)
    ensures HasStep(AfterPlan(db, fs, p, userName, t, bp).db, db.nextId + 9, db.nextId, bp.step3)
    ensures StepsOf(AfterPlan(db, fs, p, userName, t, bp).db, db.nextId) == {db.nextId + 1, db.nextId + 5, db.nextId + 9}
  {
    var n := db.nextId;
    var c1 := MaterializeNameId(t.step1, p.name, n);
    var c2 := MaterializeClassState(t.step2, p.className, p.randomState);
    var c3 := MaterializeNameId(t.step3, p.name, n);
    var head := AfterHead(db, fs, p, userName);
    HeadFacts(db, fs, p, userName);
    var s1 := AfterStep(head, bp.step1, c1);
    AfterStepHas(head, bp.step1, c1);
    AfterStepHas(s1, bp.step2, c2);
    AfterStepHas(AfterStep(s1, bp.step2, c2), bp.step3, c3);
  }

  lemma AfterPlanSteps(db: Db, fs: Fs, p: Params, userName: string, t: ScriptTemplates, bp: Blueprint)
    requires Valid(db)
    ensures var n := db.nextId; var out := AfterPlan(db, fs, p, userName, t, bp).db;
      && n in out.workflows && out.workflows[n] == WorkflowRow(p.name, p.about, userName)
      && StepsOf(out, n) == {n + 1, n + 5, n + 9}
      && HasStep(out, n + 1, n, bp.step1) && HasStep(out, n + 5, n, bp.step2) && HasStep(out, n + 9, n, bp.step3)
  {
    FirstStepLayout(db, fs, p, userName, t, bp);
    SecondStepLayout(db, fs, p, userName, t, bp);
    ThirdStepLayout(db, fs, p, userName, t, bp);
  }

  lemma AfterPlanScripts(db: Db, fs: Fs, p: Params, userName: string, t: ScriptTemplates, bp: Blueprint)
    requires bp.step1.fileName != bp.step2.fileName && bp.step2.fileName != bp.step3.fileName
    requires bp.step1.fileName != bp.step3.fileName
    ensures var n := db.nextId; var out := AfterPlan(db, fs, p, userName, t, bp).fs;
      && n in out.folders
      && (n, bp.step1.fileName) in out.scripts && out.scripts[(n, bp.step1.fileName)] == MaterializeNameId(t.step1, p.name, n)
      && (n, bp.step2.fileName) in out.scripts
      && out.scripts[(n, bp.step2.fileName)] == MaterializeClassState(t.step2, p.className, p.randomState)
      && (n, bp.step3.fileName) in out.scripts && out.scripts[(n, bp.step3.fileName)] == MaterializeNameId(t.step3, p.name, n)
  {
  }

  /**
   * Workflow n exists with the request's row and is marked complete; it has exactly the three steps
   * of the blueprint at ids n+1, n+5 and n+9, each with its one input, one csv output and one python
   * implementation; and its folder holds the three materialised scripts.
   */
  ghost predicate BuiltAsPlanned(out: Outcome, n: Id, p: Params, userName: string, t: ScriptTemplates, bp: Blueprint) {
    && n in out.db.workflows && out.db.workflows[n] == WorkflowRow(p.name, p.about, userName)
    && n in out.db.completed && n in out.fs.folders
    && StepsOf(out.db, n) == {n + 1, n + 5, n + 9}
    && HasStep(out.db, n + 1, n, bp.step1) && HasStep(out.db, n + 5, n, bp.step2) && HasStep(out.db, n + 9, n, bp.step3)
    && (n, bp.step1.fileName) in out.fs.scripts && out.fs.scripts[(n, bp.step1.fileName)] == MaterializeNameId(t.step1, p.name, n)
    && (n, bp.step2.fileName) in out.fs.scripts
    && out.fs.scripts[(n, bp.step2.fileName)] == MaterializeClassState(t.step2, p.className, p.randomState)
    && (n, bp.step3.fileName) in out.fs.scripts && out.fs.scripts[(n, bp.step3.fileName)] == MaterializeNameId(t.step3, p.name, n)
  }

  /**
   * A successful construction leaves the new workflow, marked complete, with exactly the three
   * steps of the blueprint, each with its input, csv output and python implementation, and the three
   * materialised scripts in its folder.
   */
  lemma ConstructLayout(db: Db, fs: Fs, p: Params, userName: string, t: ScriptTemplates, bp: Blueprint, fault: Fault)
    requires Valid(db)
    requires bp.step1.fileName != bp.step2.fileName && bp.step2.fileName != bp.step3.fileName
    requires bp.step1.fileName != bp.step3.fileName
    requires ConstructSpec(db, fs, p, userName, t, bp, fault).response == Ok
    ensures BuiltAsPlanned(ConstructSpec(db, fs, p, userName, t, bp, fault), db.nextId, p, userName, t, bp)
  {
    ConstructOk(db, fs, p, userName, t, bp, fault);
    AfterPlanSteps(db, fs, p, userName, t, bp);
    AfterPlanScripts(db, fs, p, userName, t, bp);
  }

  /** The whole plan adds the workflow row at id n, and every step it adds belongs to that workflow. */
  lemma AfterPlanRows(db: Db, fs: Fs, p: Params, userName: string, t: ScriptTemplates, bp: Blueprint)
    ensures var n := db.nextId; var out := AfterPlan(db, fs, p, userName, t, bp).db;
      && out.workflows == db.workflows[n := WorkflowRow(p.name, p.about, userName)]
      && (forall id :: id in out.steps ==> (id in db.steps && out.steps[id] == db.steps[id]) || out.steps[id].workflowId == n)
  {
  }

  /**
   * A construction that fails at write k keeps every row written before it (there is no rollback):
   * from the second write on, the new workflow row is in the store, and it is never marked complete.
   */
  lemma ConstructNoRollback(
    db: Db, fs: Fs, p: Params, userName: string, t: ScriptTemplates, bp: Blueprint, fault: Fault, i: nat)
    requires KeysBelow(db)
    requires ConstructSpec(db, fs, p, userName, t, bp, fault).response.BuildFailed?
    requires i <= ConstructSpec(db, fs, p, userName, t, bp, fault).response.at
    ensures var out := ConstructSpec(db, fs, p, userName, t, bp, fault); var n := db.nextId;
      && Keeps(Run(Build(db, fs, 0, 0), Plan(p, userName, n, t, bp)[..i]).db, out.db)
      && out.db.completed == db.completed
      && (out.response.at >= 1 ==> n in out.db.workflows && out.db.workflows[n] == WorkflowRow(p.name, p.about, userName))
  {
    var n := db.nextId;
    var init := Build(db, fs, 0, 0);
    var plan := Plan(p, userName, n, t, bp);
    var k := ConstructSpec(db, fs, p, userName, t, bp, fault).response.at;
    PlanBlocks(p, userName, n, t, bp);
    PrefixKeeps(init, plan, i, k);
    PrefixKeeps(init, plan, 0, k);
    assert plan[..0] == [];
    if k >= 1 {
      PrefixKeeps(init, plan, 1, k);
      assert plan[..1] == [plan[0]] + [];
      RunCons(init, plan[0], []);
    }
  }

  /** Only a construction in which every write succeeded marks a workflow complete. */
  lemma CompleteOnlyOnSuccess(db: Db, fs: Fs, p: Params, userName: string, t: ScriptTemplates, bp: Blueprint, fault: Fault)
    requires KeysBelow(db)
    ensures var out := ConstructSpec(db, fs, p, userName, t, bp, fault);
      out.db.completed == if out.response == Ok then db.completed + {db.nextId} else db.completed
  {
    var out := ConstructSpec(db, fs, p, userName, t, bp, fault);
    var plan := Plan(p, userName, db.nextId, t, bp);
    var k := StopIndex(fault, db.nextId in fs.folders);
    PlanBlocks(p, userName, db.nextId, t, bp);
    RunKeeps(Build(db, fs, 0, 0), plan[..k]);
  }

  /** A request that fails validation is answered before the store is read, and changes nothing. */
  lemma ValidationFirst(db: Db, fs: Fs, req: Request, env: Env, t: ScriptTemplates, bp: Blueprint, fault: Fault)
    requires Validate(req, env.parseInt).Failure?
    ensures AddPhenotypeSpec(db, fs, req, env, t, bp, fault) == Outcome(Rejected(Validate(req, env.parseInt).error), db, fs)
  {
  }

  /** An existing name with replace "false" is a conflict, and changes nothing. */
  lemma ConflictRule(db: Db, fs: Fs, req: Request, env: Env, t: ScriptTemplates, bp: Blueprint, fault: Fault)
    requires Validate(req, env.parseInt).Success? && !Validate(req, env.parseInt).value.replace
    requires Named(db, req.name.value) != {} && fault != FindFails
    ensures AddPhenotypeSpec(db, fs, req, env, t, bp, fault) == Outcome(Conflict, db, fs)
  {
  }

  /**
   * After a successful request exactly one workflow has the requested name, the new one; every
   * workflow that had the name before is gone, with its steps, which needs replace "true".
   */
  lemma ReplaceRule(db: Db, fs: Fs, req: Request, env: Env, t: ScriptTemplates, bp: Blueprint, fault: Fault)
    requires Valid(db)
    requires AddPhenotypeSpec(db, fs, req, env, t, bp, fault).response == Ok
    ensures Validate(req, env.parseInt).Success?
    ensures var name := req.name.value; var out := AddPhenotypeSpec(db, fs, req, env, t, bp, fault).db;
      && Named(out, name) == {db.nextId}
      && (forall id :: id in Named(db, name) ==> id !in out.workflows && StepsOf(out, id) == {})
      && (Named(db, name) != {} ==> Lower(req.replace.value) == "true")
  {
    var p := Validate(req, env.parseInt).value;
    var base := Cleared(db, p.name);
    var userName := env.sanitize(p.userName);
    ConstructOk(base, fs, p, userName, t, bp, fault);
    AfterPlanRows(base, fs, p, userName, t, bp);
    var out := AfterPlan(base, fs, p, userName, t, bp).db;
    assert Named(out, p.name) == {db.nextId};
    forall id | id in Named(db, p.name)
      ensures id !in out.workflows && StepsOf(out, id) == {}
    {
      assert id < db.nextId;
    }
  }

  /**
   * A request that fails after its workflow row was written leaves that row, incomplete, in the
   * store, together with every row that was there after the replace rule.
   */
  lemma NoRollback(db: Db, fs: Fs, req: Request, env: Env, t: ScriptTemplates, bp: Blueprint, fault: Fault)
    requires Valid(db)
    requires AddPhenotypeSpec(db, fs, req, env, t, bp, fault).response.BuildFailed?
    ensures Validate(req, env.parseInt).Success?
    ensures var out := AddPhenotypeSpec(db, fs, req, env, t, bp, fault); var n := db.nextId;
      && n !in out.db.completed
      && (forall id :: id in db.workflows && db.workflows[id].name != req.name.value ==> id in out.db.workflows)
      && (out.response.at >= 1 ==> n in out.db.workflows && out.db.workflows[n].name == req.name.value)
  {
    var p := Validate(req, env.parseInt).value;
    var base := Cleared(db, p.name);
    var userName := env.sanitize(p.userName);
    ClearedValid(db, p.name);
    ConstructNoRollback(base, fs, p, userName, t, bp, fault, 0);
    assert Plan(p, userName, base.nextId, t, bp)[..0] == [];
  }

  /**
   * A successful request leaves the new workflow with exactly the three steps of the blueprint, each
   * with its one input, one csv output and one python implementation, writes the three materialised
   * scripts into its folder, and marks it complete.
   */
  lemma SuccessLayout(db: Db, fs: Fs, req: Request, env: Env, t: ScriptTemplates, bp: Blueprint, fault: Fault)
    requires Valid(db)
    requires bp.step1.fileName != bp.step2.fileName && bp.step2.fileName != bp.step3.fileName
    requires bp.step1.fileName != bp.step3.fileName
    requires AddPhenotypeSpec(db, fs, req, env, t, bp, fault).response == Ok
    ensures Validate(req, env.parseInt).Success?
    ensures var p := Validate(req, env.parseInt).value;
      BuiltAsPlanned(AddPhenotypeSpec(db, fs, req, env, t, bp, fault), db.nextId, p, env.sanitize(p.userName), t, bp)
  {
    var p := Validate(req, env.parseInt).value;
    ClearedValid(db, p.name);
    ConstructLayout(Cleared(db, p.name), fs, p, env.sanitize(p.userName), t, bp, fault);
  }

  /**
   * The route's steps: "step_1_load" (load, position 1), "step_2_execute_ml_technique" (logic,
   * position 2) and "step_3_output" (output, position 3), implemented by step1.py, step2.py and
   * step3.py, so `SuccessLayout` applies to them.
   */
  lemma StepsShape()
    ensures Steps.step1.name == "step_1_load" && Steps.step1.stepType == Load && Steps.step1.position == 1
    ensures Steps.step2.name == "step_2_execute_ml_technique" && Steps.step2.stepType == Logic && Steps.step2.position == 2
    ensures Steps.step3.name == "step_3_output" && Steps.step3.stepType == Output && Steps.step3.position == 3
    ensures Steps.step1.fileName == "step1.py" && Steps.step2.fileName == "step2.py" && Steps.step3.fileName == "step3.py"
    ensures Steps.step1.fileName != Steps.step2.fileName && Steps.step2.fileName != Steps.step3.fileName
    ensures Steps.step1.fileName != Steps.step3.fileName
  {
  }

  datatype UploadedFile = UploadedFile(name: string, content: Bytes)

  datatype UploadRequest = UploadRequest(phenotypeName: Option<string>, replace: Option<string>, file: Option<UploadedFile>)

  /** The one call of an upload that fails, if any. */
  datatype UploadFault = NoUploadFault | LookupFails | MkdirFails | MoveFails

  datatype UploadResponse =
    | Uploaded
    | UploadRejected(reason: Rejection)
    | NoSuchWorkflow
    | NoWorkflowFolder
    | MkdirFailed
    | AlreadyExists
    | MoveFailed

  /** The parameter checks of `uploadCsvDataset`, made before the store is read. */
  predicate UploadChecked(req: UploadRequest) {
    Given(req.phenotypeName) && Given(req.replace) && req.file.Some? && ParseReplace(req.replace.value).Some?
  }

  /**
   * What `uploadCsvDataset` answers and leaves in the uploads folder, given the workflow the lookup
   * found (None when no workflow has the name or the lookup failed).
   */
  function UploadSpec(fs: Fs, req: UploadRequest, fault: UploadFault, found: Option<Id>): (UploadResponse, Fs) {
    if !Given(req.phenotypeName) || !Given(req.replace) || req.file.None? then (UploadRejected(MissingParameters), fs)
    else if ParseReplace(req.replace.value).None? then (UploadRejected(BadReplace), fs)
    else if found.None? then (NoSuchWorkflow, fs)
    else
      var id := found.value;
      var file := req.file.value;
      if id !in fs.folders then (NoWorkflowFolder, fs)
      else if id !in fs.datasetFolders && fault == MkdirFails then (MkdirFailed, fs)
      else
        var withFolder := fs.(datasetFolders := fs.datasetFolders + {id});
        if !ParseReplace(req.replace.value).value && (id, file.name) in fs.datasets then (AlreadyExists, withFolder)
        else if fault == MoveFails then (MoveFailed, withFolder)
        else (Uploaded, withFolder.(datasets := fs.datasets[(id, file.name) := file.content]))
  }

  /** `POST /DecisionTreeClassifier/uploadCsvDataset`. */
  method UploadCsvDataset(store: Store, uploads: Uploads, req: UploadRequest, fault: UploadFault)
    returns (res: UploadResponse, ghost found: Option<Id>)
    modifies uploads
    ensures found.Some? ==> Given(req.phenotypeName) && found.value in Named(store.State(), req.phenotypeName.value)
    ensures found.None? && UploadChecked(req) && fault != LookupFails ==> Named(store.State(), req.phenotypeName.value) == {}
    ensures (res, uploads.State()) == UploadSpec(old(uploads.State()), req, fault, found)
  {
    found := None;
    if !Given(req.phenotypeName) || !Given(req.replace) || req.file.None? {
      return UploadRejected(MissingParameters), found;
    }
    var replace := ParseReplace(req.replace.value);
    if replace.None? {
      return UploadRejected(BadReplace), found;
    }
    var workflow := store.FindOne(req.phenotypeName.value, fault != LookupFails);
    if workflow.Failure? || workflow.value.None? {
      return NoSuchWorkflow, found;
    }
    var id := workflow.value.value;
    found := Some(id);
    if id !in uploads.folders {
      return NoWorkflowFolder, found;
    }
    var folder := uploads.MakeDatasetFolder(id, fault != MkdirFails);
    if !folder {
      return MkdirFailed, found;
    }
    var file := req.file.value;
    if !replace.value && (id, file.name) in uploads.datasets {
      return AlreadyExists, found;
    }
    var moved := uploads.MoveDataset(id, file.name, file.content, fault != MoveFails);
    res := if moved then Uploaded else MoveFailed;
  }

  /** With replace "false" an existing dataset of the same name is never overwritten. */
  lemma UploadKeepsExisting(fs: Fs, req: UploadRequest, fault: UploadFault, found: Option<Id>)
    requires req.replace.Some? && Lower(req.replace.value) == "false"
    requires req.file.Some? && found.Some? && (found.value, req.file.value.name) in fs.datasets
    ensures UploadSpec(fs, req, fault, found).1.datasets == fs.datasets
    ensures UploadSpec(fs, req, fault, found).0 != Uploaded
  {
  }

  /**
   * An upload succeeds exactly when the parameters are valid, the workflow and its folder exist, the
   * datasets folder exists or can be made, the name is free or replace is "true", and the move
   * succeeds; it then stores the file under the workflow and changes no other dataset.
   */
  lemma UploadOutcome(fs: Fs, req: UploadRequest, fault: UploadFault, found: Option<Id>)
    ensures var (res, out) := UploadSpec(fs, req, fault, found);
      res == Uploaded <==>
        && Given(req.phenotypeName) && Given(req.replace) && req.file.Some?
        && (Lower(req.replace.value) == "true" || Lower(req.replace.value) == "false")
        && found.Some? && found.value in fs.folders
        && (found.value in fs.datasetFolders || fault != MkdirFails)
        && (Lower(req.replace.value) == "true" || (found.value, req.file.value.name) !in fs.datasets)
        && fault != MoveFails
    ensures var (res, out) := UploadSpec(fs, req, fault, found);
      res == Uploaded ==> out.datasets == fs.datasets[(found.value, req.file.value.name) := req.file.value.content]
    ensures var (res, out) := UploadSpec(fs, req, fault, found);
      res != Uploaded ==> out.datasets == fs.datasets
    ensures var out := UploadSpec(fs, req, fault, found).1;
      out.folders == fs.folders && out.scripts == fs.scripts && fs.datasetFolders <= out.datasetFolders
  {
  }
}
