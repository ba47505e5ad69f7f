/**
 * The workflow generator service: `generateWorkflow`, which walks a list of step records (recursing
 * into nested implementations) and builds the ordered `workflowInputs` dict and the `generatedSteps`
 * list; the `generate` route; and `tbcGenerateMainYml`. The builders of the `api.workflow` module are
 * opaque: the model records the calls made to them, in order, instead of the document they build.
 */
module Generator {
  import opened Wrappers
  import opened Text
  import opened Templates

  datatype InputRec = InputRec(doc: string)
  datatype OutputRec = OutputRec(doc: string, extension: string)

  /** A step's `implementation`: a script (it has a `language`) or a nested list of steps. */
  datatype Implementation =
    | Code(language: string, fileName: string)
    | Subworkflow(steps: seq<StepRec>)

  /** One step record of the request body. */
  datatype StepRec = StepRec(
    name: string, stepType: string, doc: string, position: int, workflowId: int,
    inputs: seq<InputRec>, outputs: seq<OutputRec>, implementation: Implementation)

  /** A call to the opaque workflow builder: `createWorkflowStep` or `createNestedWorkflowStep`. */
  datatype BuilderCall =
    | ToolStepCall(position: int, name: string, stepType: string, language: string, extension: Option<string>, nested: bool)
    | NestedStepCall(position: int, name: string, sub: Generated)

  /**
   * The `content` of a generated step: the exported tool definition of a python, knime or js step,
   * the empty string for any other language, or the dump of a nested workflow.
   */
  datatype Content =
    | ToolDefinition(language: string, name: string, stepType: string, doc: string,
                     inputDoc: string, extension: string, outputDoc: string)
    | NoDefinition
    | WorkflowDump(calls: seq<BuilderCall>)

  datatype GeneratedStep =
    | ToolEntry(name: string, stepType: string, workflowId: int, content: Content, fileName: string)
    | NestedEntry(name: string, stepType: string, workflowId: int, content: Content, steps: seq<GeneratedStep>)

  /**
   * A `workflowInputs` key: `potentialCases`, `'inputModule' + str(position)` for a script step, or
   * `'inputModule' + str(position) + '-' + str(index)` for a module of a nested step. KeyString gives
   * the text; it is injective (KeyStringInjective), so a dict over these keys is the dict over strings.
   */
  datatype Key = PotentialCasesKey | ModuleKey(position: int) | NestedKey(position: int, index: nat)

  /**
   * A Python dict from key to `{'class': 'File', 'path': ...}` (`workflowInputs`): its keys in insertion
   * order and the path under each key.
   */
  datatype Inputs = Inputs(keys: seq<Key>, paths: map<Key, string>)

  /** What `generateWorkflow` returns: the builder calls, `steps` and `workflowInputs`. */
  datatype Generated = Generated(workflow: seq<BuilderCall>, steps: seq<GeneratedStep>, inputs: Inputs)

  /** A Python `IndexError`: a missing first step, input or output. */
  datatype GenError = IndexError

  const PotentialCases := "potentialCases"
  const ModulePrefix := "inputModule"
  const KnownLanguages: set<string> := {"python", "knime", "js"}

  // ---------------------------------------------------------------- keys

  /** The text of a key, built with Python `str()` on the numbers. */
  function KeyString(k: Key): string {
    match k
    case PotentialCasesKey => PotentialCases
    case ModuleKey(p) => ModulePrefix + IntToDecimal(p)
    case NestedKey(p, i) => ModulePrefix + IntToDecimal(p) + "-" + NatToDecimal(i)
  }

  /** `str()` of an integer holds no minus sign after its first character. */
  lemma NoDashAfterSign(p: int)
    ensures forall i :: 1 <= i < |IntToDecimal(p)| ==> IntToDecimal(p)[i] != '-'
  {
    var s := IntToDecimal(p);
    if p < 0 {
      forall i | 1 <= i < |s|
        ensures s[i] != '-'
      {
        assert s[i] == s[1..][i - 1];
      }
    }
  }

  lemma PrefixCancel(x: string, a: string, b: string)
    ensures x + a == x + b <==> a == b
  {
    if x + a == x + b {
      assert a == (x + a)[|x|..];
      assert b == (x + b)[|x|..];
    }
  }

  /** The first index from i on that holds a minus sign, or the length. */
  function DashFrom(s: string, i: nat): nat
    requires i <= |s|
    decreases |s| - i
  {
    if i == |s| then |s| else if s[i] == '-' then i else DashFrom(s, i + 1)
  }

  lemma {:induction false} DashInNumber(a: string, b: string, i: nat)
    requires 1 <= i <= |a|
    requires forall j :: 1 <= j < |a| ==> a[j] != '-'
    ensures DashFrom(a, i) == |a| && DashFrom(a + "-" + b, i) == |a|
    decreases |a| - i
  {
    if i < |a| {
      DashInNumber(a, b, i + 1);
    }
  }

  /** A script step's key is never a nested step's key. */
  lemma ModuleKeyNotNested(p: int, q: int, m: nat)
    ensures KeyString(ModuleKey(p)) != KeyString(NestedKey(q, m))
  {
    var a, c := IntToDecimal(p), IntToDecimal(q);
    var y := c + "-" + NatToDecimal(m);
    NoDashAfterSign(p);
    NoDashAfterSign(q);
    DashInNumber(a, "", 1);
    DashInNumber(c, NatToDecimal(m), 1);
    assert a != y;
    assert KeyString(NestedKey(q, m)) == ModulePrefix + y;
    PrefixCancel(ModulePrefix, a, y);
  }

  lemma NestedKeyInjective(p: int, m: nat, q: int, n: nat)
    requires KeyString(NestedKey(p, m)) == KeyString(NestedKey(q, n))
    ensures p == q && m == n
  {
    var a, c := IntToDecimal(p), IntToDecimal(q);
    var x, y := a + "-" + NatToDecimal(m), c + "-" + NatToDecimal(n);
    assert KeyString(NestedKey(p, m)) == ModulePrefix + x;
    assert KeyString(NestedKey(q, n)) == ModulePrefix + y;
    PrefixCancel(ModulePrefix, x, y);
    NoDashAfterSign(p);
    NoDashAfterSign(q);
    DashInNumber(a, NatToDecimal(m), 1);
    DashInNumber(c, NatToDecimal(n), 1);
    assert |a| == |c|;
    assert a == x[..|a|] == y[..|c|] == c;
    IntDecimalInjective(p, q);
    assert NatToDecimal(m) == x[|a| + 1..] == y[|c| + 1..] == NatToDecimal(n);
    DecimalInjective(m, n);
  }

  /** The potential-cases key starts with 'p', every module key with 'i'. */
  lemma KeyInitial(k: Key)
    ensures |KeyString(k)| > 0
    ensures KeyString(k)[0] == if k.PotentialCasesKey? then 'p' else 'i'
  {
  }

  /** Distinct keys have distinct texts. */
  lemma KeyStringInjective(a: Key, b: Key)
    requires KeyString(a) == KeyString(b)
    ensures a == b
  {
    KeyInitial(a);
    KeyInitial(b);
    match a {
      case PotentialCasesKey =>
      case ModuleKey(p) =>
        match b {
          case PotentialCasesKey =>
          case ModuleKey(q) =>
            PrefixCancel(ModulePrefix, IntToDecimal(p), IntToDecimal(q));
            IntDecimalInjective(p, q);
          case NestedKey(q, n) => ModuleKeyNotNested(p, q, n);
        }
      case NestedKey(p, m) =>
        match b {
          case PotentialCasesKey =>
          case ModuleKey(q) => ModuleKeyNotNested(q, p, m);
          case NestedKey(q, n) => NestedKeyInjective(p, m, q, n);
        }
    }
  }

  /** `'inputModule' in key` holds of exactly the module keys, so the nested filter is ModuleKeys. */
  lemma ModuleTest(k: Key)
    ensures HasSubstring(KeyString(k), ModulePrefix) <==> !k.PotentialCasesKey?
  {
    if k.PotentialCasesKey? {
      forall i ensures !OccursAt(KeyString(k), ModulePrefix, i) {
        if 0 <= i && i + |ModulePrefix| <= |PotentialCases| {
          assert PotentialCases[i..i + |ModulePrefix|][0] == PotentialCases[i] != ModulePrefix[0];
        }
      }
    } else {
      assert KeyString(k)[..|ModulePrefix|] == ModulePrefix;
      assert OccursAt(KeyString(k), ModulePrefix, 0);
    }
  }

  // ---------------------------------------------------------------- ordered dictionary

  /** `d[k]['path']`, or None when the key is absent. */
  function Lookup(d: Inputs, k: Key): Option<string> {
    if k in d.paths then Some(d.paths[k]) else None
  }

  /** `d[k] = {'class': 'File', 'path': v}`: an existing key keeps its place, a new one goes last. */
  function Put(d: Inputs, k: Key, v: string): Inputs {
    Inputs(if k in d.paths then d.keys else d.keys + [k], d.paths[k := v])
  }

  /** `d[k]['path']` for a key taken from `d`'s own key list. */
  function Path(d: Inputs, k: Key): string {
    if k in d.paths then d.paths[k] else ""
  }

  /** The keys of a nested result that contain `inputModule` (see ModuleTest), in order. */
  function ModuleKeys(keys: seq<Key>): seq<Key> {
    if keys == [] then []
    else (if keys[0].PotentialCasesKey? then [] else [keys[0]]) + ModuleKeys(keys[1..])
  }

  /** The filter keeps exactly the module keys. */
  lemma {:induction false} ModuleKeysFilter(keys: seq<Key>, k: Key)
    ensures k in ModuleKeys(keys) <==> k in keys && !k.PotentialCasesKey?
    decreases |keys|
  {
    if keys != [] {
      ModuleKeysFilter(keys[1..], k);
      assert keys == [keys[0]] + keys[1..];
    }
  }

  /** The re-keying loop for a nested step with result inputs `sub`, from module j on. */
  function PutNested(d: Inputs, position: int, sub: Inputs, modules: seq<Key>, j: nat): Inputs
    requires j <= |modules|
    decreases |modules| - j
  {
    if j == |modules| then d
    else PutNested(Put(d, NestedKey(position, j + 1), Path(sub, modules[j])), position, sub, modules, j + 1)
  }

  // ---------------------------------------------------------------- specification

  /** The `workflowInputs` a list starts with: `potentialCases` unless its first step's type mentions "external". */
  function InitialInputs(first: StepRec): Inputs {
    if HasSubstring(first.stepType, "external") then Inputs([], map[])
    else Inputs([PotentialCasesKey], map[PotentialCasesKey := "replaceMe.csv"])
  }

  /** The result of generating the nested steps of step t (empty when that generation fails). */
  function SubResult(steps: seq<StepRec>, t: nat): Generated
    requires t < |steps| && steps[t].implementation.Subworkflow?
    decreases steps, 0
  {
    match GenerateSpec(steps[t].implementation.steps, true)
    case Success(g) => g
    case Failure(_) => Generated([], [], Inputs([], map[]))
  }

  /**
   * Step t raises an IndexError: the last step (or one equal to it) has no output, a python, knime or
   * js step lacks an input or an output, or its nested list fails.
   */
  predicate StepFails(steps: seq<StepRec>, t: nat)
    requires t < |steps|
    decreases steps, 1
  {
    var s := steps[t];
    match s.implementation
    case Code(language, _) =>
      || (s == steps[|steps| - 1] && |s.outputs| == 0)
      || (language in KnownLanguages && (|s.inputs| == 0 || |s.outputs| == 0))
    case Subworkflow(sub) => GenerateSpec(sub, true).Failure?
  }

  /** The builder call made for step t; only a step equal to the last one passes an extension. */
  function CallOf(steps: seq<StepRec>, t: nat, nested: bool): BuilderCall
    requires t < |steps|
    decreases steps, 1
  {
    var s := steps[t];
    match s.implementation
    case Code(language, _) =>
      var extension := if s == steps[|steps| - 1] && |s.outputs| > 0 then Some(s.outputs[0].extension) else None;
      ToolStepCall(s.position, s.name, s.stepType, language, extension, nested)
    case Subworkflow(_) => NestedStepCall(s.position, s.name, SubResult(steps, t))
  }

  /** The entry of `steps` generated for step t. */
  function EntryOf(steps: seq<StepRec>, t: nat): GeneratedStep
    requires t < |steps|
    decreases steps, 1
  {
    var s := steps[t];
    match s.implementation
    case Code(language, fileName) =>
      var content :=
        if language in KnownLanguages && |s.inputs| > 0 && |s.outputs| > 0
        then ToolDefinition(language, s.name, s.stepType, s.doc,
                            s.inputs[0].doc, s.outputs[0].extension, s.outputs[0].doc)
        else NoDefinition;
      ToolEntry(s.name, s.stepType, s.workflowId, content, fileName)
    case Subworkflow(_) =>
      var g := SubResult(steps, t);
      NestedEntry(s.name, s.stepType, s.workflowId, WorkflowDump(g.workflow), g.steps)
  }

  /** The `workflowInputs` assignments of step t: its module path, or its nested modules re-keyed. */
  function StepInputs(m: Inputs, steps: seq<StepRec>, t: nat): Inputs
    requires t < |steps|
    decreases steps, 1
  {
    var s := steps[t];
    match s.implementation
    case Code(language, fileName) => Put(m, ModuleKey(s.position), language + "/" + fileName)
    case Subworkflow(_) =>
      var sub := NestedInputs(steps, t);
      PutNested(m, s.position, sub, ModuleKeys(sub.keys), 0)
  }

  /** The builder calls made for the first i steps. */
  function CallsUpTo(steps: seq<StepRec>, i: nat, nested: bool): seq<BuilderCall>
    requires i <= |steps|
    decreases steps, 2, i
  {
    if i == 0 then [] else CallsUpTo(steps, i - 1, nested) + [CallOf(steps, i - 1, nested)]
  }

  /** The generated steps for the first i steps. */
  function EntriesUpTo(steps: seq<StepRec>, i: nat): seq<GeneratedStep>
    requires i <= |steps|
    decreases steps, 2, i
  {
    if i == 0 then [] else EntriesUpTo(steps, i - 1) + [EntryOf(steps, i - 1)]
  }

  /** The `workflowInputs` that generating the nested steps of step t returns, when it succeeds. */
  function NestedInputs(steps: seq<StepRec>, t: nat): Inputs
    requires t < |steps| && steps[t].implementation.Subworkflow?
    decreases steps, 0
  {
    var sub := steps[t].implementation.steps;
    if sub == [] then Inputs([], map[]) else InputsUpTo(sub, |sub|, InitialInputs(sub[0]))
  }

  /** `workflowInputs` after the first i steps, starting from `init`. */
  function InputsUpTo(steps: seq<StepRec>, i: nat, init: Inputs): Inputs
    requires i <= |steps|
    decreases steps, 2, i
  {
    if i == 0 then init else StepInputs(InputsUpTo(steps, i - 1, init), steps, i - 1)
  }

  /** Some step from i on fails. */
  predicate FailsFrom(steps: seq<StepRec>, i: nat)
    requires i <= |steps|
    decreases steps, 2, |steps| - i
  {
    i < |steps| && (StepFails(steps, i) || FailsFrom(steps, i + 1))
  }

  /**
   * `generateWorkflow(steps, nested)`: an IndexError on an empty list or when any step fails;
   * otherwise one builder call and one generated step per step record, in order.
   */
  function GenerateSpec(steps: seq<StepRec>, nested: bool): Result<Generated, GenError>
    decreases steps, 4
  {
    if steps == [] then Failure(IndexError) else LoopSpec(steps, nested, InitialInputs(steps[0]))
  }

  /** The loop of `generateWorkflow` over all of `steps`, with `workflowInputs` starting as `init`. */
  function LoopSpec(steps: seq<StepRec>, nested: bool, init: Inputs): Result<Generated, GenError>
    decreases steps, 3
  {
    if FailsFrom(steps, 0) then Failure(IndexError)
    else Success(Generated(CallsUpTo(steps, |steps|, nested), EntriesUpTo(steps, |steps|), InputsUpTo(steps, |steps|, init)))
  }

  // ---------------------------------------------------------------- implementation

  /** `generateWorkflow`: a loop over the steps that recurses into nested implementations. */
  method GenerateWorkflow(steps: seq<StepRec>, nested: bool) returns (r: Result<Generated, GenError>)
    ensures r == GenerateSpec(steps, nested)
    decreases steps, 3
  {
    if |steps| == 0 {
      return Failure(IndexError);
    }
    var inputs := Inputs([], map[]);
    if !HasSubstring(steps[0].stepType, "external") {
      inputs := Inputs([PotentialCasesKey], map[PotentialCasesKey := "replaceMe.csv"]);
    }
    r := GenerateLoop(steps, nested, inputs);
  }

  /** The `for step in steps` loop, from `workflowInputs` `init` and empty `workflow` and `generatedSteps`. */
  method GenerateLoop(steps: seq<StepRec>, nested: bool, init: Inputs) returns (r: Result<Generated, GenError>)
    ensures r == LoopSpec(steps, nested, init)
    decreases steps, 2
  {
    var workflow: seq<BuilderCall> := [];
    var inputs := init;
    var generated: seq<GeneratedStep> := [];
    var i := 0;
    while i < |steps|
      invariant i <= |steps|
      invariant workflow == CallsUpTo(steps, i, nested)
      invariant generated == EntriesUpTo(steps, i)
      invariant inputs == InputsUpTo(steps, i, init)
      invariant FailsFrom(steps, 0) == FailsFrom(steps, i)
    {
      var ok;
      ok, workflow, generated, inputs := LoopBody(steps, i, nested, workflow, generated, inputs);
      if !ok {
        PassesStepNot(steps, i);
        return Failure(IndexError);
      }
      PassesStep(steps, i);
      i := i + 1;
    }
    r := Success(Generated(workflow, generated, inputs));
  }

  lemma PassesStep(steps: seq<StepRec>, i: nat)
    requires i < |steps| && !StepFails(steps, i)
    ensures FailsFrom(steps, i) == FailsFrom(steps, i + 1)
  {
  }

  lemma PassesStepNot(steps: seq<StepRec>, i: nat)
    requires i < |steps| && StepFails(steps, i)
    ensures FailsFrom(steps, i)
  {
  }

  /** The body of the loop of `generateWorkflow`, on step i. */
  method LoopBody(steps: seq<StepRec>, i: nat, nested: bool,
                  workflow: seq<BuilderCall>, generated: seq<GeneratedStep>, inputs: Inputs)
    returns (ok: bool, workflow': seq<BuilderCall>, generated': seq<GeneratedStep>, inputs': Inputs)
    requires i < |steps|
    ensures ok <==> !StepFails(steps, i)
    ensures ok ==> && workflow' == workflow + [CallOf(steps, i, nested)]
                   && generated' == generated + [EntryOf(steps, i)]
                   && inputs' == StepInputs(inputs, steps, i)
    decreases steps, 1
  {
    if steps[i].implementation.Code? {
      ok, workflow', generated', inputs' := ToolStep(steps, i, nested, workflow, generated, inputs);
    } else {
      ok, workflow', generated', inputs' := NestedStep(steps, i, nested, workflow, generated, inputs);
    }
  }

  /** The loop body for a script step (one with a `language`). */
  method ToolStep(steps: seq<StepRec>, i: nat, nested: bool,
                  workflow: seq<BuilderCall>, generated: seq<GeneratedStep>, inputs: Inputs)
    returns (ok: bool, workflow': seq<BuilderCall>, generated': seq<GeneratedStep>, inputs': Inputs)
    requires i < |steps| && steps[i].implementation.Code?
    ensures ok <==> !StepFails(steps, i)
    ensures ok ==> && workflow' == workflow + [CallOf(steps, i, nested)]
                   && generated' == generated + [EntryOf(steps, i)]
                   && inputs' == StepInputs(inputs, steps, i)
  {
    var step := steps[i];
    var language, fileName := step.implementation.language, step.implementation.fileName;
    var extension: Option<string> := None;
    if step == steps[|steps| - 1] {
      if |step.outputs| == 0 {
        return false, workflow, generated, inputs;
      }
      extension := Some(step.outputs[0].extension);
    }
    workflow' := workflow + [ToolStepCall(step.position, step.name, step.stepType, language, extension, nested)];
    inputs' := Put(inputs, ModuleKey(step.position), language + "/" + fileName);
    var content := NoDefinition;
    if language == "python" || language == "knime" || language == "js" {
      if |step.inputs| == 0 || |step.outputs| == 0 {
        return false, workflow', generated, inputs';
      }
      content := ToolDefinition(language, step.name, step.stepType, step.doc,
                                step.inputs[0].doc, step.outputs[0].extension, step.outputs[0].doc);
    }
    generated' := generated + [ToolEntry(step.name, step.stepType, step.workflowId, content, fileName)];
    ok := true;
  }

  /** The loop body for a step whose implementation is a nested list of steps. */
  method NestedStep(steps: seq<StepRec>, i: nat, nested: bool,
                    workflow: seq<BuilderCall>, generated: seq<GeneratedStep>, inputs: Inputs)
    returns (ok: bool, workflow': seq<BuilderCall>, generated': seq<GeneratedStep>, inputs': Inputs)
    requires i < |steps| && steps[i].implementation.Subworkflow?
    ensures ok <==> !StepFails(steps, i)
    ensures ok ==> && workflow' == workflow + [CallOf(steps, i, nested)]
                   && generated' == generated + [EntryOf(steps, i)]
                   && inputs' == StepInputs(inputs, steps, i)
    decreases steps, 0
  {
    var step := steps[i];
    var n := GenerateWorkflow(step.implementation.steps, true);
    if n.Failure? {
      return false, workflow, generated, inputs;
    }
    var sub := n.value.inputs;
    GeneratedValid(step.implementation.steps, true);
    var modules := ModuleKeys(sub.keys);
    inputs' := inputs;
    var j := 0;
    while j < |modules|
      invariant j <= |modules|
      invariant PutNested(inputs', step.position, sub, modules, j) == PutNested(inputs, step.position, sub, modules, 0)
    {
      ModuleKeysFilter(sub.keys, modules[j]);
      inputs' := Put(inputs', NestedKey(step.position, j + 1), sub.paths[modules[j]]);
      j := j + 1;
    }
    workflow' := workflow + [NestedStepCall(step.position, step.name, n.value)];
    generated' := generated + [NestedEntry(step.name, step.stepType, step.workflowId,
                                          WorkflowDump(n.value.workflow), n.value.steps)];
    ok := true;
  }

  // ---------------------------------------------------------------- the re-keying loop

  /** The keys a step may assign in `workflowInputs`. */
  predicate Writes(step: StepRec, k: Key) {
    match step.implementation
    case Code(_, _) => k == ModuleKey(step.position)
    case Subworkflow(_) => k.NestedKey? && k.position == step.position
  }

  /** No step in [lo, i) may assign key k. */
  ghost predicate Untouched(steps: seq<StepRec>, lo: nat, i: nat, k: Key)
    requires lo <= i <= |steps|
  {
    forall u {:trigger Writes(steps[u], k)} :: lo <= u < i ==> !Writes(steps[u], k)
  }

  lemma {:induction false} PutNestedOthers(d: Inputs, position: int, sub: Inputs, modules: seq<Key>, j: nat, k: Key)
    requires j <= |modules|
    requires !(k.NestedKey? && k.position == position && j < k.index <= |modules|)
    ensures Lookup(PutNested(d, position, sub, modules, j), k) == Lookup(d, k)
    decreases |modules| - j
  {
    if j < |modules| {
      PutNestedOthers(Put(d, NestedKey(position, j + 1), Path(sub, modules[j])), position, sub, modules, j + 1, k);
    }
  }

  /** Module t of a nested result ends up under `inputModule<position>-<t+1>` with its path. */
  lemma {:induction false} PutNestedSets(d: Inputs, position: int, sub: Inputs, modules: seq<Key>, j: nat, t: nat)
    requires j <= t < |modules|
    ensures Lookup(PutNested(d, position, sub, modules, j), NestedKey(position, t + 1)) == Some(Path(sub, modules[t]))
    decreases |modules| - j
  {
    var d1 := Put(d, NestedKey(position, j + 1), Path(sub, modules[j]));
    if j < t {
      PutNestedSets(d1, position, sub, modules, j + 1, t);
    } else {
      PutNestedOthers(d1, position, sub, modules, j + 1, NestedKey(position, t + 1));
    }
  }

  /** The `inputModule` keys of the nested result of step t, in order. */
  function Modules(steps: seq<StepRec>, t: nat): seq<Key>
    requires t < |steps| && steps[t].implementation.Subworkflow?
  {
    ModuleKeys(NestedInputs(steps, t).keys)
  }

  /** A step leaves alone every key it may not assign. */
  lemma StepKeeps(d: Inputs, steps: seq<StepRec>, u: nat, k: Key)
    requires u < |steps| && !Writes(steps[u], k)
    ensures Lookup(StepInputs(d, steps, u), k) == Lookup(d, k)
  {
    var s := steps[u];
    if s.implementation.Subworkflow? {
      var modules := Modules(steps, u);
      PutNestedOthers(d, s.position, NestedInputs(steps, u), modules, 0, k);
    }
  }

  /** Step t leaves alone a key it may not assign. */
  lemma KeepsAt(steps: seq<StepRec>, t: nat, init: Inputs, k: Key)
    requires t < |steps| && !Writes(steps[t], k)
    ensures Lookup(InputsUpTo(steps, t + 1, init), k) == Lookup(InputsUpTo(steps, t, init), k)
  {
    StepKeeps(InputsUpTo(steps, t, init), steps, t, k);
  }

  /** A key that no step in [lo, i) may assign reads after step i - 1 as it did before step lo. */
  lemma {:induction false} KeepsBetween(steps: seq<StepRec>, lo: nat, i: nat, init: Inputs, k: Key)
    requires lo <= i <= |steps|
    requires Untouched(steps, lo, i, k)
    ensures Lookup(InputsUpTo(steps, i, init), k) == Lookup(InputsUpTo(steps, lo, init), k)
    decreases i
  {
    if lo < i {
      assert !Writes(steps[i - 1], k);
      assert Untouched(steps, lo, i - 1, k);
      KeepsBetween(steps, lo, i - 1, init, k);
      KeepsAt(steps, i - 1, init, k);
    }
  }

  /** After step t, its module key holds its path until a later step assigns that key again. */
  lemma ModuleSet(steps: seq<StepRec>, i: nat, init: Inputs, t: nat)
    requires t < i <= |steps| && steps[t].implementation.Code?
    requires Untouched(steps, t + 1, i, ModuleKey(steps[t].position))
    ensures var c := steps[t].implementation;
      Lookup(InputsUpTo(steps, i, init), ModuleKey(steps[t].position)) == Some(c.language + "/" + c.fileName)
  {
    KeepsBetween(steps, t + 1, i, init, ModuleKey(steps[t].position));
  }

  /** After nested step t, its j-th module holds its path until a later step assigns that key again. */
  lemma NestedSet(steps: seq<StepRec>, i: nat, init: Inputs, t: nat, j: nat)
    requires t < i <= |steps| && steps[t].implementation.Subworkflow? && j < |Modules(steps, t)|
    requires Untouched(steps, t + 1, i, NestedKey(steps[t].position, j + 1))
    ensures Lookup(InputsUpTo(steps, i, init), NestedKey(steps[t].position, j + 1))
              == Some(Path(NestedInputs(steps, t), Modules(steps, t)[j]))
  {
    KeepsBetween(steps, t + 1, i, init, NestedKey(steps[t].position, j + 1));
    var before := InputsUpTo(steps, t, init);
    assert InputsUpTo(steps, t + 1, init) == PutNested(before, steps[t].position, NestedInputs(steps, t), Modules(steps, t), 0);
    PutNestedSets(before, steps[t].position, NestedInputs(steps, t), Modules(steps, t), 0, j);
  }

  // ---------------------------------------------------------------- the key list matches the paths

  /** A dict's key list holds each of its keys exactly once. */
  ghost predicate Valid(d: Inputs) {
    && (forall k :: k in d.keys <==> k in d.paths)
    && (forall a, b :: 0 <= a < b < |d.keys| ==> d.keys[a] != d.keys[b])
  }

  lemma {:induction false} PutNestedValid(d: Inputs, position: int, sub: Inputs, modules: seq<Key>, j: nat)
    requires j <= |modules| && Valid(d)
    ensures Valid(PutNested(d, position, sub, modules, j))
    decreases |modules| - j
  {
    if j < |modules| {
      PutNestedValid(Put(d, NestedKey(position, j + 1), Path(sub, modules[j])), position, sub, modules, j + 1);
    }
  }

  lemma {:induction false} InputsValid(steps: seq<StepRec>, i: nat, init: Inputs)
    requires i <= |steps| && Valid(init)
    ensures Valid(InputsUpTo(steps, i, init))
    decreases i
  {
    if i > 0 {
      InputsValid(steps, i - 1, init);
      var s := steps[i - 1];
      if s.implementation.Subworkflow? {
        PutNestedValid(InputsUpTo(steps, i - 1, init), s.position, NestedInputs(steps, i - 1), Modules(steps, i - 1), 0);
      }
    }
  }

  /** Every `workflowInputs` that `generateWorkflow` returns keeps each key once, in its list of keys. */
  lemma GeneratedValid(steps: seq<StepRec>, nested: bool)
    requires GenerateSpec(steps, nested).Success?
    ensures Valid(GenerateSpec(steps, nested).value.inputs)
  {
    InputsValid(steps, |steps|, InitialInputs(steps[0]));
  }

  lemma {:induction false} CallsInOrder(steps: seq<StepRec>, i: nat, nested: bool)
    requires i <= |steps|
    ensures |CallsUpTo(steps, i, nested)| == i && |EntriesUpTo(steps, i)| == i
    ensures forall t :: 0 <= t < i ==>
      CallsUpTo(steps, i, nested)[t] == CallOf(steps, t, nested) && EntriesUpTo(steps, i)[t] == EntryOf(steps, t)
    decreases i
  {
    if i > 0 {
      CallsInOrder(steps, i - 1, nested);
    }
  }

  // ---------------------------------------------------------------- what generateWorkflow promises

  /** An empty list, or a list with a failing step, raises an IndexError. */
  lemma FailureCases(steps: seq<StepRec>, nested: bool, t: nat)
    requires t < |steps| && StepFails(steps, t)
    ensures GenerateSpec(steps, nested) == Failure(IndexError) == GenerateSpec([], nested)
  {
    var i := t;
    while i > 0
      invariant 0 <= i <= t && FailsFrom(steps, i)
      decreases i
    {
      i := i - 1;
    }
  }

  /** When generation succeeds, no step failed. */
  lemma NoStepFails(steps: seq<StepRec>, nested: bool, t: nat)
    requires GenerateSpec(steps, nested).Success? && t < |steps|
    ensures !StepFails(steps, t)
  {
    var i := 0;
    while i < t
      invariant i <= t && !FailsFrom(steps, i)
    {
      i := i + 1;
    }
  }

  /**
   * One builder call and one generated step per step record, in order: a script step records its
   * language and file, and passes an extension (its first output's) exactly when it equals the last step.
   */
  lemma GeneratedInOrder(steps: seq<StepRec>, nested: bool, t: nat)
    requires GenerateSpec(steps, nested).Success? && t < |steps|
    ensures var g := GenerateSpec(steps, nested).value;
      && |g.workflow| == |steps| == |g.steps|
      && g.workflow[t].position == steps[t].position && g.workflow[t].name == steps[t].name
      && g.steps[t].name == steps[t].name && g.steps[t].stepType == steps[t].stepType
      && g.steps[t].workflowId == steps[t].workflowId
      && match steps[t].implementation
         case Code(language, fileName) =>
           && g.workflow[t].ToolStepCall? && g.workflow[t].language == language
           && g.workflow[t].stepType == steps[t].stepType && g.workflow[t].nested == nested
           && (g.workflow[t].extension.Some? <==> steps[t] == steps[|steps| - 1])
           && (steps[t] == steps[|steps| - 1] ==>
                 |steps[t].outputs| > 0 && g.workflow[t].extension == Some(steps[t].outputs[0].extension))
           && g.steps[t].ToolEntry? && g.steps[t].fileName == fileName
           && (g.steps[t].content.ToolDefinition? <==> language in KnownLanguages)
         case Subworkflow(sub) =>
           && GenerateSpec(sub, true).Success?
           && g.workflow[t] == NestedStepCall(steps[t].position, steps[t].name, GenerateSpec(sub, true).value)
           && g.steps[t].NestedEntry? && g.steps[t].steps == GenerateSpec(sub, true).value.steps
  {
    CallsInOrder(steps, |steps|, nested);
    NoStepFails(steps, nested, t);
    if steps[t].implementation.Subworkflow? {
      assert SubResult(steps, t) == GenerateSpec(steps[t].implementation.steps, true).value;
    }
  }

  // ---------------------------------------------------------------- the workflowInputs it returns

  /** `potentialCases` holds `replaceMe.csv` exactly when the first step's type does not mention "external". */
  lemma PotentialCasesInput(steps: seq<StepRec>, nested: bool)
    requires GenerateSpec(steps, nested).Success?
    ensures Lookup(GenerateSpec(steps, nested).value.inputs, PotentialCasesKey)
              == if HasSubstring(steps[0].stepType, "external") then None else Some("replaceMe.csv")
  {
    assert Untouched(steps, 0, |steps|, PotentialCasesKey);
    KeepsBetween(steps, 0, |steps|, InitialInputs(steps[0]), PotentialCasesKey);
  }

  /**
   * A script step's `inputModule<position>` holds `<language>/<fileName>`, unless a later script step
   * has the same position (then the later one's assignment wins).
   */
  lemma ModuleInput(steps: seq<StepRec>, nested: bool, t: nat)
    requires GenerateSpec(steps, nested).Success? && t < |steps| && steps[t].implementation.Code?
    requires forall u :: t < u < |steps| && steps[u].implementation.Code? ==> steps[u].position != steps[t].position
    ensures var c := steps[t].implementation;
      Lookup(GenerateSpec(steps, nested).value.inputs, ModuleKey(steps[t].position)) == Some(c.language + "/" + c.fileName)
  {
    assert Untouched(steps, t + 1, |steps|, ModuleKey(steps[t].position));
    ModuleSet(steps, |steps|, InitialInputs(steps[0]), t);
  }

  /**
   * The j-th `inputModule` entry of a nested step's result is copied to `inputModule<position>-<j+1>`,
   * with the same path, unless a later nested step has the same position. The nested `potentialCases`
   * is never among them.
   */
  lemma NestedInput(steps: seq<StepRec>, nested: bool, t: nat, j: nat)
    requires GenerateSpec(steps, nested).Success? && t < |steps| && steps[t].implementation.Subworkflow?
    requires forall u :: t < u < |steps| && steps[u].implementation.Subworkflow? ==> steps[u].position != steps[t].position
    ensures GenerateSpec(steps[t].implementation.steps, true).Success?
    ensures var sub := GenerateSpec(steps[t].implementation.steps, true).value.inputs;
      j < |ModuleKeys(sub.keys)| ==>
        && !ModuleKeys(sub.keys)[j].PotentialCasesKey?
        && Lookup(sub, ModuleKeys(sub.keys)[j]).Some?
        && Lookup(GenerateSpec(steps, nested).value.inputs, NestedKey(steps[t].position, j + 1))
             == Lookup(sub, ModuleKeys(sub.keys)[j])
  {
    NoStepFails(steps, nested, t);
    var subSteps := steps[t].implementation.steps;
    var sub := GenerateSpec(subSteps, true).value.inputs;
    assert subSteps != [];
    assert GenerateSpec(subSteps, true) == LoopSpec(subSteps, true, InitialInputs(subSteps[0]));
    assert NestedInputs(steps, t) == sub;
    if j < |ModuleKeys(sub.keys)| {
      GeneratedValid(subSteps, true);
      ModuleKeysFilter(sub.keys, ModuleKeys(sub.keys)[j]);
      assert Untouched(steps, t + 1, |steps|, NestedKey(steps[t].position, j + 1));
      NestedSet(steps, |steps|, InitialInputs(steps[0]), t, j);
    }
  }

  /** Every key of the result is one a step assigns, or `potentialCases` from the start. */
  lemma {:induction false} KeysAssigned(steps: seq<StepRec>, i: nat, init: Inputs, k: Key)
    requires i <= |steps| && k in InputsUpTo(steps, i, init).paths
    ensures k in init.paths || exists u :: 0 <= u < i && Writes(steps[u], k)
    decreases i
  {
    if i > 0 && !Writes(steps[i - 1], k) {
      StepKeeps(InputsUpTo(steps, i - 1, init), steps, i - 1, k);
      KeysAssigned(steps, i - 1, init, k);
    }
  }

  /**
   * The keys of `workflowInputs`: `potentialCases`, `inputModule<p>` for a script step at position p,
   * and `inputModule<p>-<j>` for a nested step at position p; no other key.
   */
  lemma ResultKeys(steps: seq<StepRec>, nested: bool, k: Key)
    requires GenerateSpec(steps, nested).Success? && k in GenerateSpec(steps, nested).value.inputs.paths
    ensures k.PotentialCasesKey? || exists u :: 0 <= u < |steps| && Writes(steps[u], k)
  {
    KeysAssigned(steps, |steps|, InitialInputs(steps[0]), k);
  }

  // ---------------------------------------------------------------- the routes

  /** A response of the generator service. */
  datatype Response =
    | EmptyObject
    | GeneratedWorkflow(workflow: seq<BuilderCall>, steps: seq<GeneratedStep>, inputs: Inputs)
    | PlainText(text: string)
    | ServerError(message: string)

  /**
   * `POST /generate`. `body` is the parsed request (None when it is not JSON). A missing or empty list
   * gives `{}`; otherwise the top-level workflow is generated, and an IndexError becomes an error response.
   */
  method Generate(body: Option<seq<StepRec>>) returns (resp: Response)
    ensures resp == EmptyObject <==> body.None? || body.value == []
    ensures resp.ServerError? <==> body.Some? && body.value != [] && GenerateSpec(body.value, false).Failure?
    ensures resp.GeneratedWorkflow? ==>
      body.Some? && GenerateSpec(body.value, false) == Success(Generated(resp.workflow, resp.steps, resp.inputs))
    ensures !resp.PlainText?
  {
    if body.None? || body.value == [] {
      return EmptyObject;
    }
    var r := GenerateWorkflow(body.value, false);
    match r
    case Success(g) => resp := GeneratedWorkflow(g.workflow, g.steps, g.inputs);
    case Failure(_) => resp := ServerError("IndexError");
  }

  /** The prefix of the error text of `tbcGenerateMainYml`. */
  const MainYmlError := "ERROR generating main.yml file: "

  /**
   * `GET /tbc/generateMainYml/<dataset_name>`. `file` is reading `templates/tbc/main.yml`: its text,
   * or the error message of the failed read.
   */
  method GenerateMainYml(file: Result<string, string>, datasetName: string) returns (resp: Response)
    ensures file.Success? ==> resp == PlainText(MainYml(file.value, datasetName))
    ensures file.Failure? ==> resp == ServerError(MainYmlError + file.error)
  {
    match file
    case Success(content) => resp := PlainText(MainYml(content, datasetName));
    case Failure(e) => resp := ServerError(MainYmlError + e);
  }
}
