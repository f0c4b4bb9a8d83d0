# cdk-template core, modelled in Dafny

A model of the logic in the cdk-template repository, an AWS CDK starter for
serverless REST APIs in TypeScript, with proofs about that model. It covers
four parts:

- **Environment resolution** (`Config`, `AppConfig`). A branch name, taken
  from `BRANCH` or else from git, selects a row of the stage table. That row
  gives the stage name, the credential profile and the staging flag.
- **Request and response glue for Lambda handlers** (`QueryParams`,
  `LambdaHandler`):
  - query-string normalisation;
  - the recursive trimming of request bodies;
  - how `handlerWrapper` assembles success and error proxy responses.
- **Assembly of the API and its functions** (`LambdaProps`, `ServerlessApi`,
  `Infrastructure`, `Sdk`):
  - the stage-dependent Lambda settings;
  - the definition loop of `buildServerlessApi`, modelled as the sequence of
    construct actions it performs, together with its in-place `apiPaths`
    counter;
  - the stack names and stack list of the app;
  - the default cache time-to-live.
- **Orchestration scripts** (`Host`, `Destroy`, `Synth`, `Deploy`). These are
  methods on a `Host.Machine` object that holds four things:
  - `process.env`;
  - a file-system map;
  - a record of outward calls: profile checks, log-group deletions, spawned
    commands, queue messages and created stacks;
  - the exit code.

  Each script's method is proved equal to a specification function of the
  previous state. The lemmas are stated about those functions.

Helper modules:

- `Wrappers` has `Option` and `Result`.
- `Strings` has the JavaScript string built-ins the code uses.
- `Dict` models a JavaScript plain object as an insertion-ordered list of
  entries. It provides assignment, `delete`, spread and lookup.
- `Json` has JSON values, `??`, truthiness and property reads.

Foreign calls are parameters:

- `decodeURIComponent`, `JSON.parse`, `JSON.stringify`;
- the key test of `trimIndexedAttributes`;
- `fromRoot()`;
- the git branch and `validateAwsProfile`;
- AWS and process outcomes, taken from `Host.Outside`: log-group pages,
  delete, spawn and send results.

## Model

| member | source | states |
|---|---|---|
| Config.StagesOrder | config.ts:19-56 | the table has four rows in the order individual, develop, qa, master |
| Config.StagesDistinctBranches | config.ts:19-56 | no two rows share a branch |
| Config.StagesUnconfigured | config.ts:19-56 | every shipped row has an empty account and `deployMfa` false |
| AppConfig.ResolveBranch | lib/getAppConfig.ts:24 | a defined `BRANCH` is used as is; the git branch is used only when `BRANCH` is undefined |
| AppConfig.FindIndex | lib/getAppConfig.ts:28 | the index of the first row with the branch, or -1 when no row has it |
| AppConfig.FindStage | lib/getAppConfig.ts:28 | `find ?? stages[0]` yields a row of the table; it is missing only when the table is empty |
| AppConfig.DeriveStage | lib/getAppConfig.ts:33-42 | the derived stage never contains `/` |
| AppConfig.GetAppConfig | lib/getAppConfig.ts:12-53 | models `getAppConfig`; a resolved configuration has a non-empty branch taken from `BRANCH ?? git`, an account, the project constant and a slash-free stage derived from the branch; the full behaviour is in ResolutionFailures and ResolvedConfig |
| AppConfig.BranchOverridesGit | lib/getAppConfig.ts:24-26 | with `BRANCH` defined the git branch is irrelevant; an empty `BRANCH` fails |
| AppConfig.ResolutionFailures | lib/getAppConfig.ts:24-29 | resolution fails exactly for an empty or absent branch, an empty table, or an empty account, and with which error |
| AppConfig.ResolvedConfig | lib/getAppConfig.ts:28-52 | on success: the first matching row (or the head row); the resolved branch; the derived stage; the project constant; profile is alias or alias-token; staging iff stage is prod, qa or dev; fullDeploy iff `FULL_DEPLOY === 'true'` |
| AppConfig.ListedBranchResolves | lib/getAppConfig.ts:28 | in a table without duplicate branches, a listed branch resolves to its own row |
| AppConfig.StageRules | lib/getAppConfig.ts:33-42 | master→prod, qa→qa, develop→dev; otherwise the last `/`-segment, else the branch verbatim |
| AppConfig.StageOfPath | lib/getAppConfig.ts:40-41 | `prefix/seg` deploys to `seg` |
| AppConfig.FeatureQaIsStaging | lib/getAppConfig.ts:33-47 | `feature/qa` gives stage qa and counts as staging |
| AppConfig.ReleaseDevelopIsNotStaging | lib/getAppConfig.ts:33-47 | `release/develop` gives stage develop and is not staging |
| AppConfig.TrailingSlashGivesEmptyStage | lib/getAppConfig.ts:40-41 | `foo/` gives the empty stage |
| AppConfig.ShippedTableAlwaysFails | lib/getAppConfig.ts:26-29 | with the shipped table every resolution fails, at the branch check or at the account check |
| AppConfig.ShippedTableLookup | lib/getAppConfig.ts:28-46 | with the shipped table an unknown branch falls back to `individual`, and every profile equals the alias |
| Strings.Trim | lib/queryParams.ts:12 | `trim()`: the result has no leading or trailing ECMAScript whitespace and is obtained from the input by removing whitespace at its two ends only |
| Strings.ToLower | lib/queryParams.ts:9-12 | `toLowerCase()` on ASCII: same length, each letter lower-cased, every other character kept |
| Strings.TrimIdempotent | lib/queryParams.ts:12 | trimming twice equals trimming once |
| QueryParams.QueryParamsResult | lib/queryParams.ts:7-22 | models `getQueryParams`; its behaviour is stated by ResultKeySet, ResultValue, RequiredCheck, OptionalIgnored and AbsentQuery |
| QueryParams.Missing | lib/queryParams.ts:15-16 | a required parameter is missing exactly when its lower-cased form is not a key |
| QueryParams.GetQueryParams | lib/queryParams.ts:7-22 | the loop's result equals the specification `QueryParamsResult` |
| QueryParams.ResultKeySet | lib/queryParams.ts:11-13 | on success the keys are exactly the lower-cased input keys, each once |
| QueryParams.ResultValue | lib/queryParams.ts:12 | each value is `decode(trim(v))` of the last input entry whose key lower-cases to it |
| QueryParams.RequiredCheck | lib/queryParams.ts:9-20 | a URI error iff some trimmed value does not decode; otherwise a bad request iff some lower-cased required parameter is not a key; on success every one of them is a key |
| QueryParams.ResultKeys | lib/queryParams.ts:11-15 | the keys the loop assigns are the lower-cased input keys |
| QueryParams.OptionalIgnored | lib/queryParams.ts:7-22 | the optional list never changes the result or the error, whatever the query |
| QueryParams.AbsentQuery | lib/queryParams.ts:7-20 | a null or undefined map gives the empty object when nothing is required, and a bad request otherwise |
| LambdaHandler.FormatFields | lib/lambda.ts:111-139 | models `getFormattedObject` on an object's entries; stated by FormatFieldsLookup, FormatTrims and FormatIdempotent |
| LambdaHandler.EventBody | lib/lambda.ts:108-142 | parsing fails iff the text (`{}` for a missing body) does not parse; the result is an object iff the parsed value is one |
| LambdaHandler.GetFormattedObject | lib/lambda.ts:111-139 | the loop builds exactly `FormatFields` of the entries |
| LambdaHandler.ParseEventBody | lib/lambda.ts:108-142 | the method's result equals the specification `EventBody` |
| LambdaHandler.FormatFieldsLookup | lib/lambda.ts:114-138 | formatting keeps the key set; each key's value is the formatted value of its last entry |
| LambdaHandler.FormatTrims | lib/lambda.ts:114-135 | every string held by an object, at every depth of nested objects, is trimmed |
| LambdaHandler.FormatIdempotent | lib/lambda.ts:111-139 | formatting a formatted value changes nothing |
| LambdaHandler.EventBodyRules | lib/lambda.ts:108-142 | a missing body is read as `{}`; parsing fails iff the text does not parse; a non-object comes back unchanged; an object keeps its keys, is trimmed, and a second pass leaves it alone |
| LambdaHandler.MissingBodyIsEmptyObject | lib/lambda.ts:108-110 | a missing body, parsed as `{}`, yields the empty object |
| LambdaHandler.RecursivelyFormat | lib/lambda.ts:21-40 | objects stay objects, arrays stay arrays of the same length, and every other value is returned unchanged |
| LambdaHandler.FormatDropsIndexedKeys | lib/lambda.ts:21-33 | a formatted object has exactly the original keys that are not indexed keys |
| LambdaHandler.FormatWithoutIndexedKeys | lib/lambda.ts:21-40 | with no indexed keys, formatting leaves a well-formed value unchanged |
| LambdaHandler.StripControlFields | lib/lambda.ts:52-55 | deleting the four control properties removes exactly those keys from an object and leaves a non-object alone |
| LambdaHandler.DefaultHeadersDistinct | lib/lambda.ts:9-15 | the default headers have distinct keys |
| LambdaHandler.HandlerWrapper | lib/lambda.ts:42-104 | a resolved handler always gets status 200 and multi-value headers `multiValueHeaders ?? {}`; a throw rejects iff the thrown value is null or undefined, and otherwise gets the default headers and no multi-value headers |
| LambdaHandler.SuccessResponse | lib/lambda.ts:46-77 | status 200; custom headers are added after the defaults and override them; `customBody` unless nullish, else the serialised body; `multiValueHeaders ?? {}` |
| LambdaHandler.SuccessBodyShape | lib/lambda.ts:57-65 | `success` comes first, as `customSuccess ?? true`; the deprecation notice appears iff `isDeprecated === 'true'`; `payload` appears iff the stripped result has keys or is an array |
| LambdaHandler.DeprecationKeys | lib/lambda.ts:59-63 | the notice has keys isDeprecated, deprecationOn, deprecationMessage when deprecated, and none otherwise |
| LambdaHandler.PayloadWithoutControlFields | lib/lambda.ts:52-64 | an object payload carries no control property and no indexed key |
| LambdaHandler.ErrorResponse | lib/lambda.ts:82-104 | a thrown null or undefined rejects; otherwise default headers, no multi-value headers, the serialised error body, and status `statusCode ?? $metadata?.httpStatusCode ?? 500`, each step skipped when nullish |
| LambdaHandler.ErrorBodyDefaults | lib/lambda.ts:85-99 | `success` is false; reason is `name ?? reason ?? 'Unknown'`; error is `Error?.Message ?? message ?? error ?? validationErrors ?? 'Unknown error'`, each step skipped when nullish; a non-object error gets reason `Unknown`, error `Unknown error` and status 500; the notice appears iff deprecated |
| LambdaHandler.EmptyResult | lib/lambda.ts:46-65 | a handler resolving to undefined gets `{success: true}` plus any notice |
| LambdaProps.BuildCommonLambdaProps | lib/infrastructure/lambda.ts:8-27 | models `buildCommonLambdaProps`; stated by CommonEnvironmentKeys, ProdSettings and StageIndependentSettings |
| LambdaProps.BoolToString | lib/infrastructure/lambda.ts:15 | `toString` of a boolean is `true` or `false` |
| LambdaProps.BoolToStringInjective | lib/infrastructure/lambda.ts:15 | the text reads back as the boolean it came from |
| LambdaProps.CommonEnvironmentKeys | lib/infrastructure/lambda.ts:12-18 | the environment sets exactly five distinct variables |
| LambdaProps.ProdSettings | lib/infrastructure/lambda.ts:13-24 | warn vs debug, 0.0001 vs 0.1, infinite vs three-day retention, each iff the stage is prod |
| LambdaProps.StageIndependentSettings | lib/infrastructure/lambda.ts:9-25 | stack, stage and staging flag passed on as text; 29 s timeout; minify; Node.js 18; the project root |
| ServerlessApi.ApiImport | lib/infrastructure/buildServerlessApi.ts:27-38 | each API identifier is used as given unless empty or absent, in which case it is read from SSM |
| ServerlessApi.ApiImportFromParameters | lib/infrastructure/buildServerlessApi.ts:27-33 | without identifiers, the parameters are `/${project}/api/id/${stage}` and `/${project}/api/rootResourceId/${stage}` |
| ServerlessApi.MergedProps | lib/infrastructure/buildServerlessApi.ts:76-89 | models the props merge of each `NodejsFunction`; stated by MergedPropsRules |
| ServerlessApi.MergedPropsRules | lib/infrastructure/buildServerlessApi.ts:76-89 | definition settings, environment and bundling override the common ones key by key; policies are the common ones then the definition's; `functionName` is the id |
| ServerlessApi.Count | lib/infrastructure/buildServerlessApi.ts:108 | the count at `p` becomes one more than before, or 1 when `p` was not counted; every other path is unchanged |
| ServerlessApi.Counts | lib/infrastructure/buildServerlessApi.ts:108 | every counted path has a count of at least one |
| ServerlessApi.ServerlessApiActions | lib/infrastructure/buildServerlessApi.ts:24-137 | what `buildServerlessApi` does, as actions; stated by CountsAreOccurrences, CorsOncePerPath, DefinitionActionCounts and SkippedDefinitionIsInert |
| ServerlessApi.BuildServerlessApi | lib/infrastructure/buildServerlessApi.ts:24-137 | the loop's actions and its final `apiPaths` equal `ServerlessApiActions` and `Counts` |
| ServerlessApi.AddDefinition | lib/infrastructure/buildServerlessApi.ts:57-135 | one loop pass performs `DefinitionActions` and leaves the counter bumped on its path |
| ServerlessApi.ApplyCustomLogicFunctions | lib/infrastructure/buildServerlessApi.ts:91 | the callbacks are applied to the function in order |
| ServerlessApi.AddRoute | lib/infrastructure/buildServerlessApi.ts:93-135 | the route adds an OPTIONS method exactly when the path had no count before |
| ServerlessApi.CountsAreOccurrences | lib/infrastructure/buildServerlessApi.ts:41-108 | after the loop, `apiPaths[p]` is the number of non-skipped definitions with a route on `p` |
| ServerlessApi.DefinitionActionCounts | lib/infrastructure/buildServerlessApi.ts:67-134 | a skipped definition does nothing; otherwise one function named `${project}-${stack}-${name}-${stage}`; one method and one permission iff it has `api`; an OPTIONS method on `p` iff it is first on `p` |
| ServerlessApi.FunctionActionCounts | lib/infrastructure/buildServerlessApi.ts:76-134 | the same counts for a function's actions, whatever its props |
| ServerlessApi.RouteActionCounts | lib/infrastructure/buildServerlessApi.ts:104-134 | a route adds one method, one permission, and an OPTIONS method only when first |
| ServerlessApi.CorsOncePerPath | lib/infrastructure/buildServerlessApi.ts:108-128 | exactly one OPTIONS method for each path some definition uses, and none for other paths |
| ServerlessApi.CorsAtFirstOccurrence | lib/infrastructure/buildServerlessApi.ts:108-110 | a definition is first on its path iff no earlier non-skipped definition uses that path |
| ServerlessApi.SkippedDefinitionIsInert | lib/infrastructure/buildServerlessApi.ts:67 | removing a skipped definition from anywhere in the list changes no action |
| ServerlessApi.DeprecatedRouteEnvironment | lib/infrastructure/buildServerlessApi.ts:96-106 | deprecation sets `isDeprecated='true'`, `deprecationDate` and `updatedApiVersion` as text, before the method |
| ServerlessApi.CurrentRouteEnvironment | lib/infrastructure/buildServerlessApi.ts:96-106 | without deprecation no environment variable is added |
| Sdk.GetCache | lib/sdk.ts:14-21 | the cache is created without clones |
| Sdk.TtlConstants | lib/sdk.ts:5-11 | prod TTL is 300 s and dev TTL is 5 s |
| Sdk.DefaultTtl | lib/sdk.ts:3-12 | the default is 300 iff the stage is prod or qa; dev and an unset stage give 5 |
| Sdk.GetCacheTtl | lib/sdk.ts:14-18 | an explicit TTL is used as given; otherwise the default applies |
| Host.ScriptConfig | bin/synth.ts:14 | the configuration a script resolves from `BRANCH`, the git branch and `FULL_DEPLOY`; stated through AppConfig.GetAppConfig |
| Host.InitQueueFile | bin/synth.ts:17-23 | models the directory and queue-file initialisation; stated by InitQueueFileEffect and InitQueueFileIdempotent |
| Host.Machine.Exists | bin/synth.ts:17 | `existsSync`: true iff a file or a directory is at the path |
| Host.Machine.ReadFile | bin/destroy.ts:69-71 | the file's contents, or nothing when no file is at the path |
| Host.Machine.EnsureQueueFile | bin/synth.ts:17-23 | the method performs exactly `InitQueueFile` |
| Host.InitQueueFileEffect | bin/synth.ts:17-23 | no file is overwritten or removed; the only new file is the queue file holding `{"edgeLambdaNames":[]}`; `./dist` exists afterwards |
| Host.InitQueueFileIdempotent | bin/deploy.ts:14-20 | a second initialisation changes nothing |
| Host.RunInitThenSpawn | bin/synth.ts:17-27 | initialise, then spawn the command; a failure exits with 1 |
| Host.InitThenSpawnTwice | bin/deploy.ts:14-24 | running twice leaves the same files and directories as running once |
| Destroy.Paginate | bin/destroy.ts:36-51 | models the do/while pagination; stated by PaginationProtocol and MatchingFilters |
| Destroy.QueueUrl | bin/destroy.ts:76 | the queue URL; stated by QueueUrlShape |
| Destroy.DestroySpec | bin/destroy.ts:17-89 | models `destroy`; stated by StagingGate, DestroyOrder, DeletionsAreBestEffort and the dispatch lemmas |
| Destroy.CollectLogGroupNames | bin/destroy.ts:36-51 | the do/while loop returns exactly `Paginate(pages, None, stage)` |
| Destroy.PaginationProtocol | bin/destroy.ts:37-51 | first request without a token, each later one with the previous page's token; stops after the first falsy token; names are collected page by page in order |
| Destroy.MatchingFilters | bin/destroy.ts:44-48 | a name is kept iff it contains the stage; an empty stage keeps every name |
| Destroy.DeleteLogGroups | bin/destroy.ts:53-61 | one delete per collected name, in order, whatever the outcomes |
| Destroy.DeleteEventsAttempts | bin/destroy.ts:53-61 | one attempt per collected name, with its own outcome recorded |
| Destroy.Destroy | bin/destroy.ts:17-89 | the script's effect equals `DestroySpec` |
| Destroy.Teardown | bin/destroy.ts:53-82 | deletes, then the destroy command, then the queue dispatch |
| Destroy.DispatchCleanupQueue | bin/destroy.ts:68-82 | the dispatch's effect equals `DispatchSpec` |
| Destroy.StagingGate | bin/destroy.ts:24-29 | an unresolved or staging configuration exits with 1 before any check, env change, delete, command or message |
| Destroy.DestroyOrder | bin/destroy.ts:29-66 | profile check, `AWS_PROFILE`/`AWS_REGION` exported, one delete per name, then `npm run cdk -- destroy --all --force --profile P` |
| Destroy.DeletionsAreBestEffort | bin/destroy.ts:53-66 | failed deletes change neither the exit code nor the files, the environment or the number of recorded calls |
| Destroy.TeardownIsBestEffort | bin/destroy.ts:53-66 | after the stage check, delete outcomes change neither the exit code nor the files, the environment or the number of recorded calls |
| Destroy.DispatchKeeps | bin/destroy.ts:68-82 | the dispatch only appends to the record, never touches the environment, and keeps a failed exit code |
| Destroy.OneMessageIffNonEmpty | bin/destroy.ts:68-82 | for a queue file whose `edgeLambdaNames` is a list, other keys aside, exactly one message carrying that list is sent iff it is non-empty |
| Destroy.MissingQueueFileSendsNothing | bin/destroy.ts:68-73 | a missing queue file counts as an empty list: nothing is sent |
| Destroy.QueueUrlShape | bin/destroy.ts:76 | the URL is `https://sqs.${region}.amazonaws.com/${account}/` followed by `undefined` |
| Synth.SynthSpec | bin/synth.ts:6-33 | models `synth`; stated by SynthConfigFailure, SynthRun and SynthTwice |
| Synth.Synth | bin/synth.ts:6-33 | the script's effect equals `SynthSpec` |
| Synth.SynthProfileFlagRule | bin/synth.ts:11-15 | the profile flag is dropped iff `IS_GITHUB` or `IS_CODEBUILD` is non-empty, `'false'` included |
| Synth.SynthConfigFailure | bin/synth.ts:13-31 | a config failure exits with 1 before any write or spawn |
| Synth.SynthRun | bin/synth.ts:7-27 | the one command is `npm run cdk -- synth ${STACK} ${flag} --quiet`, with STACK defaulting to empty; the run fails iff the command does |
| Synth.SynthTwice | bin/synth.ts:17-23 | synthesising twice leaves the same files and directories as once |
| Deploy.DeploySpec | bin/deploy.ts:6-31 | models `deploy`; stated by DeployConfigFailure, DeployRun and DeployTwice |
| Deploy.Deploy | bin/deploy.ts:6-31 | the script's effect equals `DeploySpec` |
| Deploy.DeployProfileFlagRule | bin/deploy.ts:10-12 | the flag is dropped iff `IS_CODEBUILD` is non-empty; `IS_GITHUB` is not consulted |
| Deploy.DeployConfigFailure | bin/deploy.ts:7-30 | a config failure exits with 1 before any write or spawn |
| Deploy.DeployRun | bin/deploy.ts:10-24 | the one command is the exact deploy string, with `STACK` defaulting to `--all` and outputs in `./dist/${stage}-outputs.json` |
| Deploy.DeployTwice | bin/deploy.ts:14-20 | deploying twice leaves the same files and directories as once |
| Infrastructure.GetStackName | infrastructure.ts:16-18 | models `getStackName`; StackNameInjective and StackNamesDistinct state that different stacks of one project and stage get different names |
| Infrastructure.BuildInfrastructureSpec | infrastructure.ts:20-58 | models `buildInfrastructure`; stated by ProfileGate, TwoStacks and NoStackOnFailure |
| Infrastructure.BuildInfrastructure | infrastructure.ts:20-58 | the app's effect equals `BuildInfrastructureSpec` |
| Infrastructure.StackNameInjective | infrastructure.ts:16-18 | `${project}-${stack}-stack-${stage}` names differ for different stacks |
| Infrastructure.StackNamesDistinct | infrastructure.ts:11-18 | the stateful and foo stacks never share a name |
| Infrastructure.ProfileGate | infrastructure.ts:21-30 | the profile is checked iff `IS_CODEBUILD` is empty or unset and `IS_GITHUB` (default `false`), lower-cased, is not `true` |
| Infrastructure.TwoStacks | infrastructure.ts:32-51 | exactly two stacks, stateful then foo, each with its `getStackName` name and stack field, terminationProtection iff prod, and the whole configuration |
| Infrastructure.NoStackOnFailure | infrastructure.ts:25-57 | a config failure or a rejected profile exits with 1 and adds no stack |

## Left out

- Strings.ToLower: lower-cases ASCII letters only. Unicode case mapping is not modelled, so case-insensitive comparison is exact only for ASCII keys and parameters.
- Numbers are integers. Floating point, `NaN`, bigint and number-to-text conversion of non-integers are not modelled. JSON values have no `Date`, `Set`, functions or symbols, so the `Set` and `Date` branches of `recursivelyFormatObject` are absent.
- LambdaHandler.RecursivelyFormat: `trimIndexedAttributes` is external code and is modelled only as a key predicate that drops keys.
- `decodeURIComponent`, `JSON.parse` and `JSON.stringify` are external. They are parameters, and a parse or decode failure is reported as an error value.
- QueryParams.GetQueryParams: assigning to the key `__proto__` on a plain object does not create an own property. The source therefore drops a parameter whose lower-cased name is `__proto__`, while the model keeps it as an ordinary key, because keys are plain strings in the model.
- LambdaHandler.GetFormattedObject: for the same reason, a body key `__proto__` is not an own key of the source's result (assigning an object sets the prototype, and anything else is ignored). The model keeps it, so FormatFieldsLookup and EventBodyRules keep that key too.
- LambdaHandler.RecursivelyFormat: `recursivelyFormatObject` also builds each object with `acc[key] = …` (lib/lambda.ts:29-32), so it loses a `__proto__` key the same way. The model keeps it, so FormatDropsIndexedKeys and FormatWithoutIndexedKeys keep that key too.
- ServerlessApi.Count: JavaScript's `in` also sees inherited names such as `toString` or `__proto__`. The model counts every path as an ordinary key.
- CDK construct internals are not modelled: resource paths, the mock integration of the OPTIONS method, principals and ARNs, and errors for duplicate construct ids. Custom-logic callbacks are opaque numbers, and their effect on the function is not modelled.
- Console output and timing are left out: `console.log`, `console.time` and the logger.
- Concurrency is left out: `Promise.allSettled` over the deletions is modelled as a sequential loop with independent outcomes.
- Destroy.CollectLogGroupNames: the page source is finite. A request after the last served page is treated as a failed SDK call, which keeps the loop total. A page whose log group has no name is not modelled.
- Destroy.QueueUrl: the queue name is read from `edgeCleanupQueueName`, a field the resolved configuration does not have. It becomes the text `undefined`, and the model follows the code.
- Paths: `fromRoot` in destroy and the working-directory paths in synth and deploy are assumed to name the same project root.
- `process.exit` is modelled as setting the exit code. Documentation of the template says an `IS_JEST` variable suppresses the hard exit. None of the modelled scripts reads that variable: they exit unconditionally, and the model follows the code.
- Not part of this model:
  - `bin/aws-token.ts` (STS and IAM calls);
  - `src/foo/foo/v1-foo.ts`;
  - `lib/wsConnection.ts`;
  - `stacks/stateful.ts` and `stacks/foo.ts`, which declare constructs only.

  The stateful stack writes the API id parameter under `/${project}/stateful/id/${stage}`, while `buildServerlessApi` reads `/${project}/api/id/${stage}`. The model only records the name it reads.
- `validateAwsProfile`, `getLocalGitBranch` and `spawn` are external calls. They are inputs taken from `Host.Outside`.
