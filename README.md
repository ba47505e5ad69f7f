# Phenoflow phenotype construction, workflow generation and trace-based clustering

This project is a Dafny model of the core of Phenoflow, which stores computable phenotype definitions as
workflows of steps. A workflow is a database row with steps, and each step has inputs, outputs and
implementations. The model covers three parts of the system.

- **Web routes that build phenotypes.** `POST /DecisionTreeClassifier/addPhenotype` validates its request.
  It applies the replace rule: an existing phenotype of the same name is destroyed, or the request is
  refused. It then writes, one write after another and without a transaction:
  - the workflow row and its `uploads` folder;
  - three steps, each with an input, a csv output, a materialised python script and an implementation;
  - the completion mark.

  `POST /DecisionTreeClassifier/uploadCsvDataset` stores a dataset in the `datasets` folder of an existing
  phenotype. `POST /tbc/addPhenotype` is the trace-based clustering variant: nine required fields, a
  load step and a bare partitions step, and no completion mark.
- **The workflow generator service.** `generateWorkflow` walks the step records of a workflow and recurses
  into nested implementations. It returns the builder calls, the generated step list and the ordered
  `workflowInputs` dict (`potentialCases`, `inputModule<position>` and `inputModule<position>-<index>`).
  The model also covers the `/generate` route and `tbcGenerateMainYml`.
- **Three trace-based clustering scripts.**
  - The matrix of matches: the Dice score of every cluster of the partition with k clusters against each
    cluster of the earlier partitions, keeping the first best.
  - The final candidate clusters: the entries whose mean best score reaches the threshold.
  - The CSV output: one row per instance of each candidate.

Modules, in dependency order:

- `Wrappers`: Option and Result.
- `Text`: decimal rendering, ASCII lower-casing and substring tests.
- `Templates`: global `replaceAll` with an alternation pattern, and the three template substitutions.
- `WorkflowStore`: the tables as maps, with classes `Store` and `Uploads` that change them in place.
- `Construction`: a phenotype construction as a sequence of writes.
- `Requests`: the shared `replace` flag.
- `DecisionTreeClassifier`.
- `Tbc`.
- `Generator`.
- `MatrixOfMatches`.
- `FinalCandidates`.
- `CandidateCsv`.

Each handler is a `method` that changes the `Store` and `Uploads` objects. Its `ensures` ties the response
and the new state to a specification function of the old state. The lemmas beside it state what the
handler promises:
- validation comes first;
- the conflict and replace rules;
- there is no rollback;
- the exact layout of a successful construction.

Failures of the database, the file system and the foreign parsers are parameters. `Fault` and
`UploadFault` say which call fails. `Env` holds `Number.parseInt`, `Number.parseFloat` and
`sanitizeHtml`.

## Model

| member | source | states |
|---|---|---|
| Text.NatToDecimal | generator/api/routes.py:46 | `str` of a natural number is non-empty, all digits and has no leading zero |
| Text.DecimalRoundTrip | src/web/templates/tbc/example/python/step3.py:20 | reading back the digits of `str(n)` gives n |
| Text.DecimalInjective | src/web/templates/tbc/example/python/step3.py:20 | different numbers have different decimal texts |
| Text.IntToDecimal | generator/api/routes.py:26 | `str` of an integer starts with '-' exactly when it is negative; the rest is digits |
| Text.IntDecimalInjective | generator/api/routes.py:26 | different integers have different decimal texts |
| Text.Lower | src/web/routes/DecisionTreeClassifier.js:68 | `toLowerCase` keeps the length and lower-cases each character |
| Text.LowerIdempotent | src/web/routes/DecisionTreeClassifier.js:68 | lower-casing twice is lower-casing once |
| Text.ContainsFrom | generator/api/routes.py:14 | true exactly when the substring occurs at or after the given index |
| Text.HasSubstring | generator/api/routes.py:14 | Python's `in` on strings: true exactly when the substring occurs somewhere |
| Templates.FirstAlternative | src/web/routes/DecisionTreeClassifier.js:150 | the regex alternation matches with its first alternative that is a prefix, and with none when no alternative is |
| Templates.UnmatchedTextUnchanged | src/web/routes/DecisionTreeClassifier.js:151-159 | `replaceAll` leaves text without any token unchanged |
| Templates.PlainTextCopied | src/web/routes/DecisionTreeClassifier.js:151-159 | text in which no token starts (it may hold `<`) is copied through in front of the replaced rest |
| Templates.CopiedChar | src/web/routes/DecisionTreeClassifier.js:151-159 | where no alternative matches, `replaceAll` copies one character and goes on |
| Templates.LiteralWithoutToken | src/web/routes/DecisionTreeClassifier.js:150 | a `<` in literal text that is not followed by a token's second character starts no token |
| Templates.TokenReplaced | src/web/routes/DecisionTreeClassifier.js:151-159 | a token at the front is replaced by the callback's value for it |
| Templates.ReplaceAllFills | src/web/routes/DecisionTreeClassifier.js:150-159 | on a template of literal text, in which no token starts, and tokens, `replaceAll` fills every hole with the callback's value and copies the text |
| Templates.FirstAlternativeAppend | src/web/routes/DecisionTreeClassifier.js:204 | an alternative appended to the pattern only matches where none of the others does |
| Templates.EmptyAlternativeInert | src/web/routes/DecisionTreeClassifier.js:204-220 | the empty trailing alternative of the step-2 pattern, handed back unchanged, has no effect |
| Templates.ClassNameLiteral | src/web/routes/DecisionTreeClassifier.js:206-214 | the class name is kept exactly when it starts with `"` or `'` and ends with `"`; otherwise it is wrapped in double quotes |
| Templates.ClassNameLiteralIdempotent | src/web/routes/DecisionTreeClassifier.js:207-214 | quoting an already quoted class name changes nothing |
| Templates.NameIdPatternShape | src/web/routes/DecisionTreeClassifier.js:150 | the name/id tokens are angle-bracketed and neither is a prefix of the other |
| Templates.ClassStateTokensShape | src/web/routes/DecisionTreeClassifier.js:204 | the class-name and random-state tokens are angle-bracketed and prefix-free |
| Templates.NameIdSubstitution | src/web/routes/DecisionTreeClassifier.js:150-159 | every `<WORKFLOW_NAME>` becomes the name, every `<WORKFLOW_ID>` the id's decimal text, the rest is copied |
| Templates.ClassStateSubstitution | src/web/routes/DecisionTreeClassifier.js:204-220 | every `<CLASS_NAME>` becomes the quoted class name, every `<RANDOM_STATE>` the random state's decimal text |
| Templates.MainYmlSubstitution | generator/api/routes.py:139 | every `<DATASET_NAME>` of main.yml becomes the dataset name, the rest is copied |
| Templates.AuthorLineTemplate | src/web/routes/DecisionTreeClassifier.js:199-221 | a step-2 template with an author line `<address>` in its header is well-formed, so the substitution lemma covers it |
| WorkflowStore.DestroyNamed | src/web/routes/DecisionTreeClassifier.js:85 | destroy by name removes exactly the workflows of that name and, by cascade, their steps and those steps' inputs, outputs and implementations; every other row is kept unchanged, and so are the completion marks of the other workflows |
| WorkflowStore.DestroyKeepsValid | src/web/routes/DecisionTreeClassifier.js:82-85 | the cascade leaves no child row without its parent |
| WorkflowStore.DestroyLeavesNoDescendant | src/web/routes/DecisionTreeClassifier.js:82-85 | no step, input, output or implementation of a destroyed workflow remains |
| WorkflowStore.Cleared | src/web/routes/DecisionTreeClassifier.js:81-94 | after the replace rule no workflow has the name and the id counter is unchanged |
| WorkflowStore.ClearedValid | src/web/routes/DecisionTreeClassifier.js:81-94 | the replace rule keeps the store consistent |
| WorkflowStore.Store.FindOne | src/web/routes/DecisionTreeClassifier.js:74-80 | `findOne` fails on a fault, else finds a workflow exactly when one has the name |
| WorkflowStore.Store.Destroy | src/web/routes/DecisionTreeClassifier.js:84-90 | `destroy` removes the named workflows and their descendants, or fails and changes nothing |
| WorkflowStore.Store.CreateWorkflow | src/web/routes/DecisionTreeClassifier.js:96-103 | `create` adds the row under the next id, or fails and changes nothing |
| WorkflowStore.Store.CreateStep | src/web/routes/DecisionTreeClassifier.js:122-129 | a step row is added under the next id only when its workflow exists |
| WorkflowStore.Store.CreateInput | src/web/routes/DecisionTreeClassifier.js:130-136 | an input row is added only when its step exists |
| WorkflowStore.Store.CreateOutput | src/web/routes/DecisionTreeClassifier.js:137-143 | an output row is added only when its step exists |
| WorkflowStore.Store.CreateImplementation | src/web/routes/DecisionTreeClassifier.js:166-172 | an implementation row is added only when its step exists |
| WorkflowStore.Store.WorkflowComplete | src/web/routes/DecisionTreeClassifier.js:289 | the workflow is marked complete and nothing else changes |
| WorkflowStore.Uploads.MakeFolder | src/web/routes/DecisionTreeClassifier.js:105-116 | the folder is made unless it exists; only a failing `mkdir` of a missing folder fails |
| WorkflowStore.Uploads.WriteScript | src/web/routes/DecisionTreeClassifier.js:160 | the script is written into an existing workflow folder, or nothing changes |
| WorkflowStore.Uploads.MakeDatasetFolder | src/web/routes/DecisionTreeClassifier.js:355-366 | the `datasets` folder is made unless it exists |
| WorkflowStore.Uploads.MoveDataset | src/web/routes/DecisionTreeClassifier.js:373 | the uploaded file is stored under its name, overwriting, or nothing changes |
| Construction.WriteRow | src/web/routes/DecisionTreeClassifier.js:122-143 | one store write succeeds exactly when it is not the failing one, and then has the effect of its action |
| Construction.Write | src/web/routes/DecisionTreeClassifier.js:144-172 | the same for writes that also touch the uploads folder |
| Construction.RunKeeps | src/web/routes/DecisionTreeClassifier.js:96-288 | writes only add rows: every earlier row and completion mark stays |
| Construction.PrefixKeeps | src/web/routes/DecisionTreeClassifier.js:96-288 | a longer run of the same writes keeps everything a shorter one wrote |
| Requests.ParseReplace | src/web/routes/DecisionTreeClassifier.js:68-70 | `replace` is true exactly for "true" and false exactly for "false", ignoring case |
| Requests.ParseReplaceIgnoresCase | src/web/routes/DecisionTreeClassifier.js:68 | the flag depends only on the lower-cased field: `ParseReplace(s) == ParseReplace(Lower(s))` |
| DecisionTreeClassifier.Validate | src/web/routes/DecisionTreeClassifier.js:61-70 | each rejection in the handler's order (missing fields, then random_state, then replace); success iff random_state parses to a non-negative integer and replace is true/false, with the field values |
| DecisionTreeClassifier.PlanBlocks | src/web/routes/DecisionTreeClassifier.js:96-288 | the 17 writes: the workflow, its folder, then three five-write steps with their materialised scripts |
| DecisionTreeClassifier.AddScriptedStep | src/web/routes/DecisionTreeClassifier.js:119-172 | one step's five writes stop at the first failing one, leaving the state of that prefix |
| DecisionTreeClassifier.AddSteps | src/web/routes/DecisionTreeClassifier.js:119-288 | the three steps' writes stop at the first failing one |
| DecisionTreeClassifier.Construct | src/web/routes/DecisionTreeClassifier.js:96-290 | the response and new state are the plan's writes up to the first failure, plus the completion mark on success |
| DecisionTreeClassifier.AddPhenotype | src/web/routes/DecisionTreeClassifier.js:59-291 | the response and new store and folders are those of the handler's specification |
| DecisionTreeClassifier.ScriptedStepEffect | src/web/routes/DecisionTreeClassifier.js:119-172 | one step's five writes add the step, input, output, implementation rows and the script |
| DecisionTreeClassifier.PlanEffect | src/web/routes/DecisionTreeClassifier.js:96-288 | all writes together give the planned state |
| DecisionTreeClassifier.AfterStepHas | src/web/routes/DecisionTreeClassifier.js:119-172 | a step block adds exactly one step to the workflow, with its three children |
| DecisionTreeClassifier.AfterStepKeepsHas | src/web/routes/DecisionTreeClassifier.js:174-288 | a later step block leaves an earlier step and its children as they were |
| DecisionTreeClassifier.ConstructOk | src/web/routes/DecisionTreeClassifier.js:289-290 | a successful construction is the whole plan plus the completion mark |
| DecisionTreeClassifier.HeadFacts | src/web/routes/DecisionTreeClassifier.js:96-116 | the new workflow gets the next id and no steps yet |
| DecisionTreeClassifier.FirstStepLayout | src/web/routes/DecisionTreeClassifier.js:119-172 | the load step is at id n+1 with its input, output and implementation |
| DecisionTreeClassifier.SecondStepLayout | src/web/routes/DecisionTreeClassifier.js:173-233 | the ML step is at id n+5 with its children |
| DecisionTreeClassifier.ThirdStepLayout | src/web/routes/DecisionTreeClassifier.js:234-288 | the output step is at id n+9, and the workflow has exactly these three steps |
| DecisionTreeClassifier.AfterPlanSteps | src/web/routes/DecisionTreeClassifier.js:96-288 | the planned state holds the new workflow row and its three steps as described |
| DecisionTreeClassifier.AfterPlanScripts | src/web/routes/DecisionTreeClassifier.js:144-276 | the folder holds step1.py and step3.py with name and id filled in, and step2.py with class name and random state |
| DecisionTreeClassifier.ConstructLayout | src/web/routes/DecisionTreeClassifier.js:96-290 | success leaves the workflow complete, with exactly its three steps and three scripts |
| DecisionTreeClassifier.AfterPlanRows | src/web/routes/DecisionTreeClassifier.js:96-288 | the writes add one workflow row, and every new step belongs to it |
| DecisionTreeClassifier.ConstructNoRollback | src/web/routes/DecisionTreeClassifier.js:96-288 | a failing write keeps every earlier write, marks nothing complete, and leaves the workflow row once written |
| DecisionTreeClassifier.CompleteOnlyOnSuccess | src/web/routes/DecisionTreeClassifier.js:289 | the new workflow is marked complete exactly when every write succeeded |
| DecisionTreeClassifier.ValidationFirst | src/web/routes/DecisionTreeClassifier.js:61-70 | a rejected request leaves the store and folders untouched |
| DecisionTreeClassifier.ConflictRule | src/web/routes/DecisionTreeClassifier.js:91-94 | an existing name with replace "false" is a conflict and changes nothing |
| DecisionTreeClassifier.ReplaceRule | src/web/routes/DecisionTreeClassifier.js:81-97 | after success the name belongs to the new workflow only; the old ones are gone with their steps, which needs replace "true" |
| DecisionTreeClassifier.NoRollback | src/web/routes/DecisionTreeClassifier.js:96-288 | a failed construction is not complete, keeps other workflows, and leaves the new row once written |
| DecisionTreeClassifier.SuccessLayout | src/web/routes/DecisionTreeClassifier.js:59-291 | a successful request leaves the planned layout |
| DecisionTreeClassifier.StepsShape | src/web/routes/DecisionTreeClassifier.js:119-261 | the three steps' names, types, positions and distinct script names |
| DecisionTreeClassifier.UploadCsvDataset | src/web/routes/DecisionTreeClassifier.js:322-394 | the response and folders are the upload specification's, for the workflow the lookup finds by name |
| DecisionTreeClassifier.UploadKeepsExisting | src/web/routes/DecisionTreeClassifier.js:379-392 | with replace "false" an existing dataset is never overwritten |
| DecisionTreeClassifier.UploadOutcome | src/web/routes/DecisionTreeClassifier.js:322-394 | upload succeeds exactly when every check and file operation passes; then only that dataset changes, otherwise no dataset does |
| Tbc.Validate | web/routes/tbc.js:69-94 | each rejection in the handler's order; success iff all nine fields, k >= 2, a known algorithm and match function, seed >= 0, a numeric threshold and replace true/false |
| Tbc.AddLoadStep | web/routes/tbc.js:129-161 | the load step's four writes stop at the first failing one |
| Tbc.Construct | web/routes/tbc.js:119-173 | response and new store are the six writes up to the first failure |
| Tbc.AddPhenotype | web/routes/tbc.js:67-189 | the response and new store are those of the handler's specification |
| Tbc.PlanEffect | web/routes/tbc.js:119-173 | all six writes give the planned rows |
| Tbc.ConstructOk | web/routes/tbc.js:187-188 | a successful construction is exactly the plan; nothing is marked complete |
| Tbc.AfterPlanLayout | web/routes/tbc.js:128-173 | the workflow has the load step with its three children and a partitions step with none |
| Tbc.NeverCompleted | web/routes/tbc.js:187 | the handler never marks a workflow complete |
| Tbc.ConstructNoRollback | web/routes/tbc.js:119-173 | a failing write keeps every earlier one, including the workflow row |
| Tbc.ValidationFirst | web/routes/tbc.js:69-94 | a rejected request leaves the store untouched |
| Tbc.ConflictRule | web/routes/tbc.js:115-118 | an existing name with replace "false" is a conflict and changes nothing |
| Tbc.ReplaceRule | web/routes/tbc.js:105-121 | after success the name belongs to the new workflow only; the old ones are gone with their steps |
| Tbc.NoRollback | web/routes/tbc.js:119-173 | a failed construction keeps other workflows and the new row once written |
| Tbc.SuccessLayout | web/routes/tbc.js:67-189 | a successful request leaves the planned two-step layout, not complete |
| Generator.NoDashAfterSign | generator/api/routes.py:46 | `str` of an integer has no '-' after its first character |
| Generator.ModuleKeyNotNested | generator/api/routes.py:26-46 | an `inputModule<p>` key never equals an `inputModule<q>-<m>` key |
| Generator.NestedKeyInjective | generator/api/routes.py:46 | `inputModule<p>-<m>` determines p and m |
| Generator.KeyInitial | generator/api/routes.py:14-46 | `potentialCases` starts with 'p', every module key with 'i' |
| Generator.KeyStringInjective | generator/api/routes.py:14-46 | different keys have different strings, so the dict over keys is the dict over strings |
| Generator.ModuleTest | generator/api/routes.py:45 | a key contains `inputModule` exactly when it is not `potentialCases` |
| Generator.ModuleKeysFilter | generator/api/routes.py:45 | the filter keeps exactly the module keys of the nested inputs |
| Generator.GenerateWorkflow | generator/api/routes.py:8-52 | the result is the generation specification: the initial inputs, then each step in order, failing with IndexError on a missing element |
| Generator.GenerateLoop | generator/api/routes.py:16-50 | the loop over the steps meets the loop specification |
| Generator.LoopBody | generator/api/routes.py:18-50 | one step passes exactly when it does not fail, appending its call and entry and updating the inputs |
| Generator.ToolStep | generator/api/routes.py:18-39 | the same for a script step |
| Generator.NestedStep | generator/api/routes.py:41-50 | the same for a nested step |
| Generator.PutNestedOthers | generator/api/routes.py:46 | the nested re-keying only touches `inputModule<p>-<j>` keys of the step's position |
| Generator.PutNestedSets | generator/api/routes.py:46 | key `inputModule<p>-<j+1>` gets the path of the j-th module key of the nested inputs |
| Generator.ModuleSet | generator/api/routes.py:26 | a script step sets `inputModule<p>` to language/fileName until a later step overwrites it |
| Generator.NestedSet | generator/api/routes.py:46 | a nested step sets each re-keyed module path until a later step overwrites it |
| Generator.PutNestedValid | generator/api/routes.py:46 | the re-keying keeps the dict's keys distinct and matching its entries |
| Generator.InputsValid | generator/api/routes.py:14-50 | the inputs dict stays well-formed through the loop |
| Generator.GeneratedValid | generator/api/routes.py:52 | the returned `workflowInputs` is a well-formed dict |
| Generator.CallsInOrder | generator/api/routes.py:16-50 | call and entry t come from step t, one per step |
| Generator.FailureCases | generator/api/routes.py:16-50 | one failing step makes the whole generation fail, as an empty step list does |
| Generator.NoStepFails | generator/api/routes.py:16-50 | a successful generation has no failing step |
| Generator.GeneratedInOrder | generator/api/routes.py:16-50 | step t's builder call and entry carry its fields; only the last step's call gets an extension; known languages get a tool definition; a nested step gets its sub-generation |
| Generator.PotentialCasesInput | generator/api/routes.py:14 | `potentialCases` is `replaceMe.csv` exactly when the first step's type does not contain "external" |
| Generator.ModuleInput | generator/api/routes.py:26 | the last script step at a position decides `inputModule<position>` |
| Generator.NestedInput | generator/api/routes.py:41-47 | the last nested step at a position puts its j-th module path under `inputModule<position>-<j+1>` |
| Generator.KeysAssigned | generator/api/routes.py:14-50 | every key in the dict was there initially or was written by a step |
| Generator.ResultKeys | generator/api/routes.py:52 | every result key is `potentialCases` or a key some step writes |
| Generator.Generate | generator/api/routes.py:54-65 | an empty or unreadable body gives `{}`; otherwise the generation result, or a server error when it fails |
| Generator.GenerateMainYml | generator/api/routes.py:133-142 | main.yml with the dataset name substituted, or the error text when reading fails |
| MatrixOfMatches.Dice | src/web/templates/tbc/example/python/step3.py:33 | the Dice score lies between 0 and 1 |
| MatrixOfMatches.DiceProperties | src/web/templates/tbc/example/python/step3.py:33 | the score is symmetric and a cluster scores 1 against itself |
| MatrixOfMatches.FirstBestUnique | src/web/templates/tbc/example/python/step3.py:28-36 | the first best cluster and its score are determined by the clusters |
| MatrixOfMatches.BestMatch | src/web/templates/tbc/example/python/step3.py:28-38 | a match exists exactly when every cluster of p can be scored, and it is the first cluster with the highest score |
| MatrixOfMatches.PartitionMatches | src/web/templates/tbc/example/python/step3.py:26-38 | one best match per partition 2..k-1, in order, exactly when all can be scored |
| MatrixOfMatches.Matrix | src/web/templates/tbc/example/python/step3.py:11-40 | one entry per cluster of the k-partition, with its key, its instances verbatim and its matches, exactly when all can be computed |
| MatrixOfMatches.ClusterNamesDistinct | src/web/templates/tbc/example/python/step3.py:20 | the entry keys of different clusters differ |
| FinalCandidates.SumBounds | src/web/templates/tbc/example/python/step4.py:29 | n values between lo and hi add up to between n*lo and n*hi |
| FinalCandidates.MeanBounds | src/web/templates/tbc/example/python/step4.py:29 | the mean of values between lo and hi lies between them |
| FinalCandidates.MeanValueOfMatch | src/web/templates/tbc/example/python/step4.py:22-29 | the mean of the best scores; a division by zero exactly when the entry has no matches |
| FinalCandidates.Kept | src/web/templates/tbc/example/python/step4.py:19-33 | the kept entries are all matched and no more than the input |
| FinalCandidates.FinalCandidateClusters | src/web/templates/tbc/example/python/step4.py:11-35 | the script stops exactly when some entry has no matches, otherwise returns the kept entries in order |
| FinalCandidates.KeptMembers | src/web/templates/tbc/example/python/step4.py:31-33 | an entry is kept exactly when it is in the matrix and its mean reaches the threshold |
| FinalCandidates.KeptMonotone | src/web/templates/tbc/example/python/step4.py:31 | filtering at a lower threshold, then a higher one, is filtering at the higher one |
| FinalCandidates.KeptAll | src/web/templates/tbc/example/python/step4.py:31-33 | when every mean reaches the threshold every entry is kept, in order |
| FinalCandidates.MatrixMeans | src/web/templates/tbc/example/python/step4.py:29 | on the matrix of the third script with k >= 3 every mean is defined and in [0, 1]; with k < 3 the mean divides by zero |
| CandidateCsv.WriteCandidates | web/templates/tbc/example/python/step5.py:11-30 | the header then each entry's rows; an entry without matches stops the script after the rows before it |
| CandidateCsv.WriteEntry | web/templates/tbc/example/python/step5.py:29-30 | one row per instance of the entry, in order |
| CandidateCsv.RowCount | web/templates/tbc/example/python/step5.py:17-30 | there are as many rows as instances |
| CandidateCsv.RowsPrefix | web/templates/tbc/example/python/step5.py:17-30 | the rows of the first entries come first |
| CandidateCsv.RowAt | web/templates/tbc/example/python/step5.py:29-30 | instance j of entry i is on row (instances before i) + j, with the entry's name and mean |

## Left out

- HTTP and authentication are not modelled: JWT checks, `req.setTimeout`, status codes and logging. Responses are datatypes that name the branch taken.
- The other routes of the two route files are left out: the zip, generate and getter routes of `DecisionTreeClassifier.js`, and the CWL routes of `routes.py` (lines 67-131). They are outside this core.
- The step1/step2 scripts and the machine-learning templates are not modelled. Only their text is substituted.
- Database and file-system failures are not derived from the system. A `Fault` or `UploadFault` parameter says which call fails, and the error message text is not kept.
- `Number.parseInt`, `Number.parseFloat`, `sanitizeHtml`, `str(float)` and the reading of template files are parameters. Their behaviour is not modelled.
- Lower-casing is modelled for ASCII letters only.
- DecisionTreeClassifier.Validate: request fields are strings or absent. A JSON body can send a non-string value, for example `replace: true`. Such a value passes the presence test (DecisionTreeClassifier.js:61, tbc.js:69), and then `toLowerCase` throws (DecisionTreeClassifier.js:68, tbc.js:92). That uncaught error is not modelled. Tbc.Validate has the same gap.
- Templates.ClassStateSubstitution: the random state is written as its exact decimal digits. The handler's callback returns a JavaScript Number (DecisionTreeClassifier.js:216). Its text differs from the exact digits for 1e21 and above, which JavaScript writes in exponent notation. Integers above 2^53 also lose digits when they are parsed.
- Row ids come from one store-wide counter rather than one sequence per table. The layout lemmas state ids relative to it.
- `WorkflowUtils.workflowComplete` is modelled as a completion mark on the workflow. What it does is not part of this model.
- DecisionTreeClassifier.UploadCsvDataset: the "only one file" check (DecisionTreeClassifier.js:327) is not modelled. It is written `==! 1`, which compares the file count with `false`. A request that contains the dataset file never takes that branch. The request carries just the dataset file.
- DecisionTreeClassifier.UploadCsvDataset: a lookup fault and "no workflow of that name" are one response, as in the handler, where both go through the same catch.
- The trace-based clustering `addPhenotype` writes no files, no scripts and no steps 3-5. The handler stops after step 2.
- Generator.GenerateWorkflow: request bodies are typed records. A missing field (a `KeyError`) and a body that is not a list are not modelled.
- Generator.GenerateWorkflow: the `api.workflow` builders are opaque. The model records the calls made to them, in order. `yaml.dump` of a nested workflow is the list of its calls.
- Generator.GenerateWorkflow: the nested index `list.index(x) + 1` is modelled as position j + 1. The module keys of a well-formed dict are distinct (Generator.GeneratedValid), so these agree.
- Generator.Generate: which exception Starlette renders for a failing generation is not modelled. It is the `ServerError` response.
- MatrixOfMatches.Matrix: floats are exact reals, and the JSON keys `partition_k_<p>` and `cluster_<c>` are natural-number map keys. Every uncaught exception is None: a missing key or a division by zero.
- MatrixOfMatches.Matrix: k (5 in the script) and FinalCandidates.FinalCandidateClusters's threshold (0.6) are parameters.
- FinalCandidates.FinalCandidateClusters: the JSON dict of the matrix is a sequence of entries in key order, and the output file is the returned sequence.
- CandidateCsv.WriteCandidates: the output file is the sequence of written chunks.
