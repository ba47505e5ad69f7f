/**
 * The Trace-based clustering route `addPhenotype`: nine required fields, integer and set-membership
 * checks, the replace/conflict rule, then a workflow with only its first two steps; the handler
 * never marks the workflow complete and writes no script.
 */
module Tbc {
  import opened Wrappers
  import opened Text
  import opened WorkflowStore
  import opened Construction
  import opened Requests

  datatype Request = Request(
    k: Option<string>,
    clusteringAlgorithm: Option<string>,
    matchFunction: Option<string>,
    randomSeed: Option<string>,
    threshold: Option<string>,
    replace: Option<string>,
    name: Option<string>,
    about: Option<string>,
    userName: Option<string>)

  /**
   * The foreign functions the handler calls: `Number.parseInt` and `Number.parseFloat` (None for NaN)
   * and `sanitizeHtml`.
   */
  datatype Env = Env(parseInt: string -> Option<int>, parseFloat: string -> Option<real>, sanitize: string -> string)

  datatype Params = Params(
    k: int, clusteringAlgorithm: string, matchFunction: string, randomSeed: real, threshold: real,
    replace: bool, name: string, about: string, userName: string)

  datatype Rejection =
    | MissingParameters
    | BadK
    | BadClusteringAlgorithm
    | BadMatchFunction
    | BadRandomSeed
    | BadThreshold
    | BadReplace

  datatype Response = Ok | Rejected(reason: Rejection) | FindFailed | Conflict | DestroyFailed | BuildFailed(at: nat)

  const ClusteringAlgorithms: set<string> := {"kmeans"}
  const MatchFunctions: set<string> := {"jaccard", "jaccard2", "dice"}

  predicate AllGiven(req: Request) {
    && Given(req.k) && Given(req.clusteringAlgorithm) && Given(req.matchFunction) && Given(req.randomSeed)
    && Given(req.threshold) && Given(req.replace) && Given(req.name) && Given(req.about) && Given(req.userName)
  }

  predicate KOk(req: Request, env: Env)
    requires AllGiven(req)
  {
    env.parseInt(req.k.value).Some? && env.parseInt(req.k.value).value >= 2
  }

  predicate SeedOk(req: Request, env: Env)
    requires AllGiven(req)
  {
    env.parseFloat(req.randomSeed.value).Some? && env.parseFloat(req.randomSeed.value).value >= 0.0
  }

  predicate ReplaceOk(req: Request)
    requires AllGiven(req)
  {
    Lower(req.replace.value) == "true" || Lower(req.replace.value) == "false"
  }

  /** The checks made before the store is touched; the first one that fails names the rejection. */
  function Validate(req: Request, env: Env): (r: Result<Params, Rejection>)
    ensures r == Failure(MissingParameters) <==> !AllGiven(req)
    ensures r == Failure(BadK) <==> AllGiven(req) && !KOk(req, env)
    ensures r == Failure(BadClusteringAlgorithm) <==>
      AllGiven(req) && KOk(req, env) && req.clusteringAlgorithm.value !in ClusteringAlgorithms
    ensures r == Failure(BadMatchFunction) <==>
      AllGiven(req) && KOk(req, env) && req.clusteringAlgorithm.value in ClusteringAlgorithms
      && req.matchFunction.value !in MatchFunctions
    ensures r == Failure(BadRandomSeed) <==>
      AllGiven(req) && KOk(req, env) && req.clusteringAlgorithm.value in ClusteringAlgorithms
      && req.matchFunction.value in MatchFunctions && !SeedOk(req, env)
    ensures r == Failure(BadThreshold) <==>
      AllGiven(req) && KOk(req, env) && req.clusteringAlgorithm.value in ClusteringAlgorithms
      && req.matchFunction.value in MatchFunctions && SeedOk(req, env) && env.parseFloat(req.threshold.value).None?
    ensures r == Failure(BadReplace) <==>
      AllGiven(req) && KOk(req, env) && req.clusteringAlgorithm.value in ClusteringAlgorithms
      && req.matchFunction.value in MatchFunctions && SeedOk(req, env) && env.parseFloat(req.threshold.value).Some?
      && !ReplaceOk(req)
    ensures r.Success? <==>
      && AllGiven(req) && KOk(req, env)
      && req.clusteringAlgorithm.value in ClusteringAlgorithms && req.matchFunction.value in MatchFunctions
      && SeedOk(req, env) && env.parseFloat(req.threshold.value).Some? && ReplaceOk(req)
    ensures r.Success? ==>
      && r.value.k == env.parseInt(req.k.value).value
      && r.value.randomSeed == env.parseFloat(req.randomSeed.value).value
      && r.value.threshold == env.parseFloat(req.threshold.value).value
      && r.value.replace == (Lower(req.replace.value) == "true")
      && r.value.name == req.name.value && r.value.about == req.about.value && r.value.userName == req.userName.value
  {
    if !AllGiven(req) then Failure(MissingParameters)
    else if !KOk(req, env) then Failure(BadK)
    else if req.clusteringAlgorithm.value !in ClusteringAlgorithms then Failure(BadClusteringAlgorithm)
    else if req.matchFunction.value !in MatchFunctions then Failure(BadMatchFunction)
    else if !SeedOk(req, env) then Failure(BadRandomSeed)
    else if env.parseFloat(req.threshold.value).None? then Failure(BadThreshold)
    else match ParseReplace(req.replace.value)
      case None => Failure(BadReplace)
      case Some(replace) =>
        Success(Params(env.parseInt(req.k.value).value, req.clusteringAlgorithm.value, req.matchFunction.value,
          env.parseFloat(req.randomSeed.value).value, env.parseFloat(req.threshold.value).value,
          replace, req.name.value, req.about.value, req.userName.value))
  }

  /** The text of the two steps the handler creates; step 2 has no input, output or implementation. */
  datatype Blueprint = Blueprint(step1: StepInfo, step2Name: string, step2Doc: string)

  const Steps := Blueprint(
    StepInfo("step_1_load",
      "Read the initial dataset from the .csv file. We suppose that this dataset is already preprocessed and without missing values. Remember that all attributes must be numeric, since a clustering technique will be applied.",
      Load, 1,
      "A .csv file containing a dataset in csv format. We suppose that this dataset is already preprocessed and without missing values. Remember that all attributes must be numeric, since a clustering technique will be applied.",
      "The same .csv file, since the dataset is already preprocessed and in csv format.",
      "templates/tbc/step1.py"),
    "step_2_from_dataset_to_partitions",
    "Read the csv dataset and apply the corresponding clustering algorithm k times in order to obtain all partitions.")

  /** The writes of the handler: the workflow, step 1 with its three children, and a bare step 2. */
  function Plan(p: Params, userName: string, bp: Blueprint): seq<Action> {
    var s := bp.step1;
    [NewWorkflow(WorkflowRow(p.name, p.about, userName)),
     NewStep(s.name, s.doc, s.stepType, s.position), NewInput(s.inputDoc), NewOutput(s.outputDoc, "csv"),
     NewImplementation(s.fileName, "python"),
     NewStep(bp.step2Name, bp.step2Doc, Logic, 2)]
  }

  const PlanLength: nat := 6

  function StopIndex(fault: Fault): nat {
    if fault.BuildFails? && fault.at < PlanLength then fault.at else PlanLength
  }

  datatype Outcome = Outcome(response: Response, db: Db)

  /** The writes of the plan up to the first failing one; success marks nothing complete. */
  function ConstructSpec(db: Db, p: Params, userName: string, bp: Blueprint, fault: Fault): Outcome {
    var k := StopIndex(fault);
    var b := Run(Build(db, Fs({}, {}, map[], map[]), 0, 0), Plan(p, userName, bp)[..k]);
    Outcome(if k < PlanLength then BuildFailed(k) else Ok, b.db)
  }

  /** What `addPhenotype` answers and leaves in the store. */
  ghost function AddPhenotypeSpec(db: Db, req: Request, env: Env, bp: Blueprint, fault: Fault): Outcome {
    match Validate(req, env)
    case Failure(e) => Outcome(Rejected(e), db)
    case Success(p) =>
      var named := Named(db, p.name) != {};
      if fault == FindFails then Outcome(FindFailed, db)
      else if named && !p.replace then Outcome(Conflict, db)
      else if named && fault == DestroyFails then Outcome(DestroyFailed, db)
      else ConstructSpec(Cleared(db, p.name), p, env.sanitize(p.userName), bp, fault)
  }

  /** Step 1 of the plan with its input, output and implementation (writes 1 to 4); stops at the first failing write. */
  method AddLoadStep(store: Store, wid: Id, s: StepInfo, fault: Fault, ghost init: Build, ghost plan: seq<Action>)
    returns (stop: nat)
    requires |plan| == PlanLength
    requires plan[1] == NewStep(s.name, s.doc, s.stepType, s.position) && plan[2] == NewInput(s.inputDoc)
    requires plan[3] == NewOutput(s.outputDoc, "csv") && plan[4] == NewImplementation(s.fileName, "python")
    requires Tracks(store, Run(init, plan[..1]), wid)
    modifies store
    ensures stop == if fault.BuildFails? && 1 <= fault.at < 5 then fault.at else 5
    ensures Tracks(store, Run(init, plan[..stop]), wid)
  {
    var ok, stepId := PlanWriteRow(store, NewStep(s.name, s.doc, s.stepType, s.position), wid, 0, fault, 1, init, plan);
    if !ok {
      return 1;
    }
    ok, stepId := PlanWriteRow(store, NewInput(s.inputDoc), wid, stepId, fault, 2, init, plan);
    if !ok {
      return 2;
    }
    ok, stepId := PlanWriteRow(store, NewOutput(s.outputDoc, "csv"), wid, stepId, fault, 3, init, plan);
    if !ok {
      return 3;
    }
    ok, stepId := PlanWriteRow(store, NewImplementation(s.fileName, "python"), wid, stepId, fault, 4, init, plan);
    if !ok {
      return 4;
    }
    stop := 5;
  }

  /** The writes of `addPhenotype` once the old workflows are gone: the plan, stopping at the first failure. */
  method Construct(store: Store, p: Params, userName: string, bp: Blueprint, fault: Fault) returns (res: Response)
    modifies store
    ensures Outcome(res, store.State()) == ConstructSpec(old(store.State()), p, userName, bp, fault)
  {
    ghost var init := Build(store.State(), Fs({}, {}, map[], map[]), 0, 0);
    ghost var plan := Plan(p, userName, bp);
    assert plan[..0] == [];

    var workflow := store.CreateWorkflow(WorkflowRow(p.name, p.about, userName), !FailsAt(fault, 0));
    if workflow.Failure? {
      return BuildFailed(0);
    }
    var wid := workflow.value;
    RunNext(init, plan, 0);

    var stop := AddLoadStep(store, wid, bp.step1, fault, init, plan);
    if stop < 5 {
      return BuildFailed(stop);
    }

    var ok, _ := PlanWriteRow(store, NewStep(bp.step2Name, bp.step2Doc, Logic, 2), wid, 0, fault, 5, init, plan);
    if !ok {
      return BuildFailed(5);
    }
    assert plan[..PlanLength] == plan;
    res := Ok;
  }

  /** `POST /tbc/addPhenotype`. */
  method AddPhenotype(store: Store, req: Request, env: Env, fault: Fault) returns (res: Response)
    modifies store
    ensures Outcome(res, store.State()) == AddPhenotypeSpec(old(store.State()), req, env, Steps, fault)
  {
    var v := Validate(req, env);
    if v.Failure? {
      return Rejected(v.error);
    }
    var p := v.value;

    var found := store.FindOne(p.name, fault != FindFails);
    if found.Failure? {
      return FindFailed;
    }
    if p.replace && found.value.Some? {
      var destroyed := store.Destroy(p.name, fault != DestroyFails);
      if destroyed.Failure? {
        return DestroyFailed;
      }
    } else if !p.replace && found.value.Some? {
      return Conflict;
    }
    res := Construct(store, p, env.sanitize(p.userName), Steps, fault);
  }

  /** The rows after every write of the plan succeeded. */
  function AfterPlan(db: Db, p: Params, userName: string, bp: Blueprint): Db {
    var n := db.nextId;
    var s := bp.step1;
    db.(workflows := db.workflows[n := WorkflowRow(p.name, p.about, userName)],
        steps := db.steps[n + 1 := StepRow(n, s.name, s.doc, s.stepType, s.position)]
                         [n + 5 := StepRow(n, bp.step2Name, bp.step2Doc, Logic, 2)],
        inputs := db.inputs[n + 2 := InputRow(n + 1, s.inputDoc)],
        outputs := db.outputs[n + 3 := OutputRow(n + 1, s.outputDoc, "csv")],
        implementations := db.implementations[n + 4 := ImplementationRow(n + 1, s.fileName, "python")],
        nextId := n + 6)
  }

  lemma PlanEffect(db: Db, fs: Fs, p: Params, userName: string, bp: Blueprint)
    ensures Run(Build(db, fs, 0, 0), Plan(p, userName, bp)).db == AfterPlan(db, p, userName, bp)
  {
    var plan := Plan(p, userName, bp);
    var b0 := Build(db, fs, 0, 0);
    RunCons(b0, plan[0], plan[1..]);
    var b1 := Apply(b0, plan[0]);
    RunCons(b1, plan[1], plan[2..]);
    var b2 := Apply(b1, plan[1]);
    RunCons(b2, plan[2], plan[3..]);
    var b3 := Apply(b2, plan[2]);
    RunCons(b3, plan[3], plan[4..]);
    var b4 := Apply(b3, plan[3]);
    RunCons(b4, plan[4], plan[5..]);
    var b5 := Apply(b4, plan[4]);
    assert plan[5..] == [plan[5]] + [];
    RunCons(b5, plan[5], []);
  }

  /** A successful construction is the whole plan; nothing is marked complete. */
  lemma ConstructOk(db: Db, p: Params, userName: string, bp: Blueprint, fault: Fault)
    requires ConstructSpec(db, p, userName, bp, fault).response == Ok
    ensures ConstructSpec(db, p, userName, bp, fault) == Outcome(Ok, AfterPlan(db, p, userName, bp))
  {
    var plan := Plan(p, userName, bp);
    assert plan[..PlanLength] == plan;
    PlanEffect(db, Fs({}, {}, map[], map[]), p, userName, bp);
  }

  /**
   * Workflow n exists with the request's row and is not marked complete; it has exactly two steps:
   * the load step at n+1 with its one input, one csv output and one python implementation, and the
   * partitions step at n+5, with no input, output or implementation.
   */
  ghost predicate BuiltAsPlanned(db: Db, n: Id, p: Params, userName: string, bp: Blueprint) {
    && n in db.workflows && db.workflows[n] == WorkflowRow(p.name, p.about, userName)
    && n !in db.completed
    && StepsOf(db, n) == {n + 1, n + 5}
    && HasStep(db, n + 1, n, bp.step1)
    && n + 5 in db.steps && db.steps[n + 5] == StepRow(n, bp.step2Name, bp.step2Doc, Logic, 2)
    && InputsOf(db, n + 5) == {} && OutputsOf(db, n + 5) == {} && ImplementationsOf(db, n + 5) == {}
  }

  lemma AfterPlanLayout(db: Db, p: Params, userName: string, bp: Blueprint)
    requires Valid(db)
    ensures BuiltAsPlanned(AfterPlan(db, p, userName, bp), db.nextId, p, userName, bp)
  {
    var n := db.nextId;
    var out := AfterPlan(db, p, userName, bp);
    ValidChildrenBelow(db);
    assert StepsOf(out, n) == {n + 1, n + 5};
    assert InputsOf(out, n + 1) == {n + 2};
    assert OutputsOf(out, n + 1) == {n + 3};
    assert ImplementationsOf(out, n + 1) == {n + 4};
    assert InputsOf(out, n + 5) == {};
    assert OutputsOf(out, n + 5) == {};
    assert ImplementationsOf(out, n + 5) == {};
  }

  /** The handler never marks a workflow complete, whether its writes succeed or not. */
  lemma NeverCompleted(db: Db, p: Params, userName: string, bp: Blueprint, fault: Fault)
    requires KeysBelow(db)
    ensures ConstructSpec(db, p, userName, bp, fault).db.completed == db.completed
  {
    var plan := Plan(p, userName, bp);
    RunKeeps(Build(db, Fs({}, {}, map[], map[]), 0, 0), plan[..StopIndex(fault)]);
  }

  /**
   * A construction that fails at write k keeps every row written before it (there is no rollback):
   * from the second write on, the new workflow row is in the store.
   */
  lemma ConstructNoRollback(db: Db, p: Params, userName: string, bp: Blueprint, fault: Fault, i: nat)
    requires KeysBelow(db)
    requires ConstructSpec(db, p, userName, bp, fault).response.BuildFailed?
    requires i <= ConstructSpec(db, p, userName, bp, fault).response.at
    ensures var out := ConstructSpec(db, p, userName, bp, fault); var n := db.nextId;
      && Keeps(Run(Build(db, Fs({}, {}, map[], map[]), 0, 0), Plan(p, userName, bp)[..i]).db, out.db)
      && (out.response.at >= 1 ==> n in out.db.workflows && out.db.workflows[n] == WorkflowRow(p.name, p.about, userName))
  {
    var n := db.nextId;
    var init := Build(db, Fs({}, {}, map[], map[]), 0, 0);
    var plan := Plan(p, userName, bp);
    var k := ConstructSpec(db, p, userName, bp, fault).response.at;
    PrefixKeeps(init, plan, i, k);
    if k >= 1 {
      PrefixKeeps(init, plan, 1, k);
      assert plan[..1] == [plan[0]] + [];
      RunCons(init, plan[0], []);
    }
  }

  /** A request that fails validation is answered before the store is read, and changes nothing. */
  lemma ValidationFirst(db: Db, req: Request, env: Env, bp: Blueprint, fault: Fault)
    requires Validate(req, env).Failure?
    ensures AddPhenotypeSpec(db, req, env, bp, fault) == Outcome(Rejected(Validate(req, env).error), db)
  {
  }

  /** An existing name with replace "false" is a conflict, and changes nothing. */
  lemma ConflictRule(db: Db, req: Request, env: Env, bp: Blueprint, fault: Fault)
    requires Validate(req, env).Success? && !Validate(req, env).value.replace
    requires Named(db, req.name.value) != {} && fault != FindFails
    ensures AddPhenotypeSpec(db, req, env, bp, fault) == Outcome(Conflict, db)
  {
  }

  /**
   * After a successful request exactly one workflow has the requested name, the new one; every
   * workflow that had the name before is gone, with its steps, which needs replace "true".
   */
  lemma ReplaceRule(db: Db, req: Request, env: Env, bp: Blueprint, fault: Fault)
    requires Valid(db)
    requires AddPhenotypeSpec(db, req, env, bp, fault).response == Ok
    ensures Validate(req, env).Success?
    ensures var name := req.name.value; var out := AddPhenotypeSpec(db, req, env, bp, fault).db;
      && Named(out, name) == {db.nextId}
      && (forall id :: id in Named(db, name) ==> id !in out.workflows && StepsOf(out, id) == {})
      && (Named(db, name) != {} ==> Lower(req.replace.value) == "true")
  {
    var p := Validate(req, env).value;
    var base := Cleared(db, p.name);
    var userName := env.sanitize(p.userName);
    ConstructOk(base, p, userName, bp, fault);
    var out := AfterPlan(base, p, userName, bp);
    assert Named(out, p.name) == {db.nextId};
    forall id | id in Named(db, p.name)
      ensures id !in out.workflows && StepsOf(out, id) == {}
    {
      assert id < db.nextId;
    }
  }

  /**
   * A request that fails after its workflow row was written leaves that row in the store, together
   * with every workflow of another name.
   */
  lemma NoRollback(db: Db, req: Request, env: Env, bp: Blueprint, fault: Fault)
    requires Valid(db)
    requires AddPhenotypeSpec(db, req, env, bp, fault).response.BuildFailed?
    ensures Validate(req, env).Success?
    ensures var out := AddPhenotypeSpec(db, req, env, bp, fault); var n := db.nextId;
      && (forall id :: id in db.workflows && db.workflows[id].name != req.name.value ==> id in out.db.workflows)
      && (out.response.at >= 1 ==> n in out.db.workflows && out.db.workflows[n].name == req.name.value)
  {
    var p := Validate(req, env).value;
    var base := Cleared(db, p.name);
    var userName := env.sanitize(p.userName);
    ClearedValid(db, p.name);
    ConstructNoRollback(base, p, userName, bp, fault, 0);
    assert Plan(p, userName, bp)[..0] == [];
  }

  /**
   * A successful request leaves the new workflow, not marked complete, with exactly the load step
   * (and its input, csv output and python implementation) and the bare partitions step.
   */
  lemma SuccessLayout(db: Db, req: Request, env: Env, bp: Blueprint, fault: Fault)
    requires Valid(db)
    requires AddPhenotypeSpec(db, req, env, bp, fault).response == Ok
    ensures Validate(req, env).Success?
    ensures var p := Validate(req, env).value;
      BuiltAsPlanned(AddPhenotypeSpec(db, req, env, bp, fault).db, db.nextId, p, env.sanitize(p.userName), bp)
  {
    var p := Validate(req, env).value;
    var base := Cleared(db, p.name);
    ClearedValid(db, p.name);
    ConstructOk(base, p, env.sanitize(p.userName), bp, fault);
    AfterPlanLayout(base, p, env.sanitize(p.userName), bp);
  }
}
