/**
 * How the template turns a list of Lambda definitions into constructs of an
 * existing REST API (lib/infrastructure/buildServerlessApi.ts, with the
 * definition shape of models/lambda.ts and the methods of models/enums.ts).
 *
 * The constructs the builder creates, and the calls it makes on them, are
 * recorded as a sequence of actions in the order the builder performs them.
 * The custom-logic callbacks of a definition are opaque: the model records
 * which callback is applied to which function.
 */
module ServerlessApi {
  import opened Wrappers
  import opened Strings
  import opened Dict
  import opened Json
  import opened LambdaProps

  datatype HttpMethod = GET | POST | PUT | DELETE | OPTIONS

  datatype ApiDeprecation = ApiDeprecation(date: string, updatedApiVersion: int)

  datatype ApiRoute = ApiRoute(httpMethod: HttpMethod, apiPath: string, deprecation: Option<ApiDeprecation>)

  /**
   * A Lambda definition. `rest` holds the remaining Node.js function props
   * of the definition (its `entry`, `loggingLevel` and any other setting it
   * overrides).
   */
  datatype LambdaDefinition = LambdaDefinition(
    name: string,
    skip: bool,
    api: Option<ApiRoute>,
    customLogicFunctions: seq<nat>,
    environment: Option<Dict<string>>,
    bundling: Option<Dict<Json>>,
    initialPolicy: Option<seq<Json>>,
    rest: Dict<Json>)

  /** The props a function is created with. */
  datatype FunctionProps = FunctionProps(
    settings: Dict<Json>,
    environment: Dict<string>,
    bundling: Dict<Json>,
    initialPolicy: seq<Json>,
    functionName: string)

  /** An identifier given literally, or the value of an imported SSM parameter. */
  datatype ApiRef = Given(value: string) | FromParameter(parameterId: string)

  datatype Action =
    | ImportParameter(id: string, parameterName: string)
    | ImportRestApi(id: string, restApiId: ApiRef, rootResourceId: ApiRef)
    | CreateFunction(id: string, props: FunctionProps)
    | ApplyCustomLogic(fn: string, callback: nat)
    | AddEnvironment(fn: string, key: string, value: string)
    | AddMethod(path: string, verb: HttpMethod, fn: string)
    | AddCorsOptions(id: string, path: string)
    | AddPermission(fn: string, id: string, path: string, verb: HttpMethod)

  // ---------------------------------------------------------------------------
  // Names
  // ---------------------------------------------------------------------------

  function FunctionId(project: string, stack: string, name: string, stage: string): string {
    project + "-" + stack + "-" + name + "-" + stage
  }

  function CorsMethodId(project: string, stack: string, name: string, stage: string): string {
    project + "-" + stack + "-" + name + "-corsMethod-" + stage
  }

  function PermissionId(project: string, stack: string, name: string, stage: string): string {
    project + "-" + stack + "-" + name + "-InvokePermission-" + stage
  }

  // ---------------------------------------------------------------------------
  // The REST API
  // ---------------------------------------------------------------------------

  /**
   * The REST API the functions are attached to: each of its two identifiers
   * is taken as given unless it is absent or empty, and then read from an SSM
   * parameter of the stage.
   */
  function ApiImport(project: string, stage: string, apiId: Option<string>, rootResourceId: Option<string>): (r: seq<Action>)
    ensures var n := |r|;
            n >= 1 && r[n - 1].ImportRestApi? && r[n - 1].id == project + "-api-" + stage
            && (r[n - 1].restApiId.FromParameter? <==> apiId.GetOr("") == "")
            && (r[n - 1].rootResourceId.FromParameter? <==> rootResourceId.GetOr("") == "")
            && (apiId.GetOr("") != "" ==> r[n - 1].restApiId == Given(apiId.value))
            && (rootResourceId.GetOr("") != "" ==> r[n - 1].rootResourceId == Given(rootResourceId.value))
            && (forall i :: 0 <= i < n - 1 ==> r[i].ImportParameter?)
  {
    var apiIdParam := project + "-baseApiIdParam-" + stage;
    var rootParam := project + "-rootResourceIdParam-" + stage;
    var id := apiId.GetOr("");
    var root := rootResourceId.GetOr("");
    (if id != "" then [] else [ImportParameter(apiIdParam, "/" + project + "/api/id/" + stage)])
    + (if root != "" then [] else [ImportParameter(rootParam, "/" + project + "/api/rootResourceId/" + stage)])
    + [ImportRestApi(project + "-api-" + stage,
                     if id != "" then Given(id) else FromParameter(apiIdParam),
                     if root != "" then Given(root) else FromParameter(rootParam))]
  }

  /** Without identifiers, both come from SSM parameters named after the project and the stage. */
  lemma ApiImportFromParameters(project: string, stage: string)
    ensures ApiImport(project, stage, None, None) == [
              ImportParameter(project + "-baseApiIdParam-" + stage, "/" + project + "/api/id/" + stage),
              ImportParameter(project + "-rootResourceIdParam-" + stage, "/" + project + "/api/rootResourceId/" + stage),
              ImportRestApi(project + "-api-" + stage,
                            FromParameter(project + "-baseApiIdParam-" + stage),
                            FromParameter(project + "-rootResourceIdParam-" + stage))]
  {
  }

  // ---------------------------------------------------------------------------
  // Function props
  // ---------------------------------------------------------------------------

  /** The props the builder takes out of a definition before spreading the rest. */
  predicate Destructured(k: string) {
    k in {"name", "skip", "api", "customLogicFunctions", "environment", "bundling", "initialPolicy"}
  }

  /** `...definition`: the definition's own props other than the destructured ones. */
  function DefinitionRest(d: LambdaDefinition): Dict<Json> {
    Filter(d.rest, k => !Destructured(k))
  }

  /** `...commonLambdaProps`: the common props other than environment, bundling and initial policy. */
  function CommonRest(c: CommonLambdaProps): Dict<Json> {
    [("runtime", JString(c.runtime)),
     ("timeout", JNumber(c.timeoutSeconds)),
     ("logRetention", JString(if c.logRetention == Infinite then "INFINITE" else "THREE_DAYS")),
     ("projectRoot", JString(c.projectRoot))]
  }

  /** The common props carry no initial policy, so they contribute the default `[]`. */
  const CommonInitialPolicy: seq<Json> := []

  /** The props a definition's function is created with. */
  function MergedProps(c: CommonLambdaProps, d: LambdaDefinition, id: string): FunctionProps {
    FunctionProps(
      Filter(Spread(CommonRest(c), DefinitionRest(d)), k => k != "functionName"),
      Spread(c.environment, d.environment.GetOr([])),
      Spread(c.bundling, d.bundling.GetOr([])),
      CommonInitialPolicy + d.initialPolicy.GetOr([]),
      id)
  }

  /**
   * The definition's own settings, environment variables and bundling options
   * override the common ones key by key; the policies are the common ones
   * followed by the definition's; the function is named `id`, whatever name
   * the definition's own props give.
   */
  lemma MergedPropsRules(c: CommonLambdaProps, d: LambdaDefinition, id: string)
    ensures var r := MergedProps(c, d, id);
            r.functionName == id
            && "functionName" !in Keys(r.settings)
            && (forall k :: k != "functionName" && k in Keys(DefinitionRest(d)) ==>
                  Get(r.settings, k) == LastWith(DefinitionRest(d), k))
            && (forall k :: k !in Keys(DefinitionRest(d)) ==> Get(r.settings, k) == LastWith(CommonRest(c), k))
    ensures var r := MergedProps(c, d, id);
            var own := d.environment.GetOr([]);
            Keys(r.environment) == Keys(c.environment) + Keys(own)
            && forall k :: Get(r.environment, k) == if k in Keys(own) then LastWith(own, k) else LastWith(c.environment, k)
    ensures var r := MergedProps(c, d, id);
            var own := d.bundling.GetOr([]);
            Keys(r.bundling) == Keys(c.bundling) + Keys(own)
            && forall k :: Get(r.bundling, k) == if k in Keys(own) then LastWith(own, k) else LastWith(c.bundling, k)
    ensures MergedProps(c, d, id).initialPolicy == CommonInitialPolicy + d.initialPolicy.GetOr([])
  {
    var spread := Spread(CommonRest(c), DefinitionRest(d));
    var settings := Filter(spread, k => k != "functionName");
    FilterDistinct(spread, k => k != "functionName");
    CommonRestKeys(c);
    forall k ensures Get(settings, k) == if k == "functionName" then None else Get(spread, k) {
      LastWithDistinct(settings, k);
    }
  }

  lemma CommonRestKeys(c: CommonLambdaProps)
    ensures Keys(CommonRest(c)) == {"runtime", "timeout", "logRetention", "projectRoot"}
    ensures "functionName" !in Keys(CommonRest(c))
  {
    var r := CommonRest(c);
    assert r[0].0 == "runtime" && r[1].0 == "timeout" && r[2].0 == "logRetention" && r[3].0 == "projectRoot";
  }

  lemma FilterDistinct<V>(d: Dict<V>, keep: string -> bool)
    requires DistinctKeys(d)
    ensures DistinctKeys(Filter(d, keep))
    ensures forall k :: LastWith(d, k) == Get(d, k)
  {
    forall k ensures LastWith(d, k) == Get(d, k) {
      LastWithDistinct(d, k);
    }
    var r := Filter(d, keep);
    forall i, j | 0 <= i < j < |r| ensures r[i].0 != r[j].0 {
      FilterOrder(d, keep, i, j);
    }
  }

  lemma {:induction false} FilterOrder<V>(d: Dict<V>, keep: string -> bool, i: int, j: int)
    requires DistinctKeys(d)
    requires 0 <= i < j < |Filter(d, keep)|
    ensures Filter(d, keep)[i].0 != Filter(d, keep)[j].0
  {
    var n := |d| - 1;
    assert d == d[..n] + [d[n]];
    var rest := Filter(d[..n], keep);
    assert DistinctKeys(d[..n]);
    if keep(d[n].0) {
      if j == |rest| {
        assert Filter(d, keep)[i] in rest;
        assert Filter(d, keep)[i] in d[..n];
      } else {
        FilterOrder(d[..n], keep, i, j);
      }
    } else {
      FilterOrder(d[..n], keep, i, j);
    }
  }

  // ---------------------------------------------------------------------------
  // The definition loop
  // ---------------------------------------------------------------------------

  /** The definition adds a method on path `p`. */
  predicate OnPath(d: LambdaDefinition, p: string) {
    !d.skip && d.api.Some? && d.api.value.apiPath == p
  }

  /** The counter after one more definition: its path, if it adds a method, counts one more. */
  function Bump(m: map<string, nat>, d: LambdaDefinition): map<string, nat> {
    if d.skip || d.api.None? then m else Count(m, d.api.value.apiPath)
  }

  /** `p in m ? m[p]++ : (m[p] = 1)`. */
  function Count(m: map<string, nat>, p: string): (r: map<string, nat>)
    ensures p in r && r.Keys == m.Keys + {p}
    ensures r[p] == if p in m then m[p] + 1 else 1
    ensures forall q :: q in m && q != p ==> r[q] == m[q]
  {
    m[p := if p in m then m[p] + 1 else 1]
  }

  /**
   * The `apiPaths` counter left by the definitions `defs`: the number of
   * methods added so far on each path.
   */
  function Counts(defs: seq<LambdaDefinition>): (m: map<string, nat>)
    ensures forall p :: p in m ==> m[p] >= 1
  {
    if defs == [] then map[]
    else
      var n := |defs| - 1;
      Bump(Counts(defs[..n]), defs[n])
  }

  /** The environment variables a deprecated route sets on its function. */
  function DeprecationActions(id: string, deprecation: Option<ApiDeprecation>): seq<Action> {
    match deprecation
    case None => []
    case Some(dep) =>
      [AddEnvironment(id, "isDeprecated", "true"),
       AddEnvironment(id, "deprecationDate", dep.date),
       AddEnvironment(id, "updatedApiVersion", IntToString(dep.updatedApiVersion))]
  }

  /** The custom-logic callbacks applied to the function, in order. */
  function CustomLogicActions(id: string, callbacks: seq<nat>): seq<Action> {
    seq(|callbacks|, i requires 0 <= i < |callbacks| => ApplyCustomLogic(id, callbacks[i]))
  }

  /** The OPTIONS method a path gets with its first method. */
  function CorsActions(project: string, stage: string, stack: string, name: string, path: string, firstOnPath: bool): seq<Action> {
    if firstOnPath then [AddCorsOptions(CorsMethodId(project, stack, name, stage), path)] else []
  }

  /** What a definition's route adds to the API and to its function `id`. */
  function RouteActions(project: string, stage: string, stack: string, name: string, id: string, api: ApiRoute, firstOnPath: bool): seq<Action> {
    DeprecationActions(id, api.deprecation)
    + [AddMethod(api.apiPath, api.httpMethod, id)]
    + CorsActions(project, stage, stack, name, api.apiPath, firstOnPath)
    + [AddPermission(id, PermissionId(project, stack, name, stage), api.apiPath, api.httpMethod)]
  }

  /** What the loop does for one definition; `firstOnPath` says no earlier definition added a method on its path. */
  function DefinitionActions(project: string, stage: string, stack: string, c: CommonLambdaProps, d: LambdaDefinition, firstOnPath: bool): seq<Action> {
    if d.skip then []
    else
      var id := FunctionId(project, stack, d.name, stage);
      FunctionActions(project, stage, stack, d.name, id, CreateFunction(id, MergedProps(c, d, id)), d.customLogicFunctions, d.api, firstOnPath)
  }

  /** The actions around the function `id`: its creation `create`, its custom logic, and its route if it has one. */
  function FunctionActions(project: string, stage: string, stack: string, name: string, id: string, create: Action,
                           callbacks: seq<nat>, api: Option<ApiRoute>, firstOnPath: bool): seq<Action> {
    [create]
    + CustomLogicActions(id, callbacks)
    + (if api.Some? then RouteActions(project, stage, stack, name, id, api.value, firstOnPath) else [])
  }

  /** Whether the definition is the first to add a method on its path, judged by the counter after the earlier ones. */
  predicate FirstOnPath(before: map<string, nat>, d: LambdaDefinition) {
    d.api.Some? && d.api.value.apiPath !in before
  }

  /** Everything the loop does for the definitions `defs`, in order. */
  function LoopActions(project: string, stage: string, stack: string, c: CommonLambdaProps, defs: seq<LambdaDefinition>): seq<Action> {
    if defs == [] then []
    else
      var n := |defs| - 1;
      LoopActions(project, stage, stack, c, defs[..n])
      + DefinitionActions(project, stage, stack, c, defs[n], FirstOnPath(Counts(defs[..n]), defs[n]))
  }

  /** Everything `buildServerlessApi` does. */
  function ServerlessApiActions(project: string, stage: string, stack: string, isStagingEnv: bool, projectRoot: string,
                                lambdaDefinitions: Option<seq<LambdaDefinition>>, apiId: Option<string>, rootResourceId: Option<string>): seq<Action> {
    ApiImport(project, stage, apiId, rootResourceId)
    + LoopActions(project, stage, stack, BuildCommonLambdaProps(stage, stack, isStagingEnv, projectRoot), lambdaDefinitions.GetOr([]))
  }

  /**
   * `buildServerlessApi`. `projectRoot` is what `fromRoot()` returns. Besides
   * the actions, the method returns the final `apiPaths` counter.
   */
  method BuildServerlessApi(project: string, stage: string, stack: string, isStagingEnv: bool, projectRoot: string,
                            lambdaDefinitions: Option<seq<LambdaDefinition>>, apiId: Option<string>, rootResourceId: Option<string>)
    returns (actions: seq<Action>, apiPaths: map<string, nat>)
    ensures actions == ServerlessApiActions(project, stage, stack, isStagingEnv, projectRoot, lambdaDefinitions, apiId, rootResourceId)
    ensures apiPaths == Counts(lambdaDefinitions.GetOr([]))
  {
    var defs := if lambdaDefinitions.Some? then lambdaDefinitions.value else [];
    var prelude := ApiImport(project, stage, apiId, rootResourceId);
    var common := BuildCommonLambdaProps(stage, stack, isStagingEnv, projectRoot);
    var loop: seq<Action> := [];
    apiPaths := map[];
    var i := 0;
    while i < |defs|
      invariant 0 <= i <= |defs|
      invariant apiPaths == Counts(defs[..i])
      invariant loop == LoopActions(project, stage, stack, common, defs[..i])
    {
      TakeOneMore(defs, i);
      LoopActionsSnoc(project, stage, stack, common, defs[..i], defs[i]);
      var step;
      step, apiPaths := AddDefinition(project, stage, stack, common, defs[i], apiPaths);
      loop := loop + step;
      i := i + 1;
    }
    TakeAll(defs);
    actions := prelude + loop;
  }

  /** One pass of the loop: what it does for the definition `d`, and the counter it leaves. */
  method AddDefinition(project: string, stage: string, stack: string, common: CommonLambdaProps, d: LambdaDefinition,
                       apiPaths: map<string, nat>)
    returns (step: seq<Action>, paths: map<string, nat>)
    requires forall p :: p in apiPaths ==> apiPaths[p] >= 1
    ensures step == DefinitionActions(project, stage, stack, common, d, FirstOnPath(apiPaths, d))
    ensures paths == Bump(apiPaths, d)
  {
    if d.skip {
      step, paths := [], apiPaths;
    } else {
      var id := FunctionId(project, stack, d.name, stage);
      step, paths := AddFunction(project, stage, stack, d.name, id, CreateFunction(id, MergedProps(common, d, id)),
                                 d.customLogicFunctions, d.api, apiPaths);
    }
  }

  /** The function `id` once `create` has made it: its custom logic, then its route if it has one. */
  method AddFunction(project: string, stage: string, stack: string, name: string, id: string, create: Action,
                     callbacks: seq<nat>, api: Option<ApiRoute>, apiPaths: map<string, nat>)
    returns (step: seq<Action>, paths: map<string, nat>)
    requires forall p :: p in apiPaths ==> apiPaths[p] >= 1
    ensures step == FunctionActions(project, stage, stack, name, id, create, callbacks, api, api.Some? && api.value.apiPath !in apiPaths)
    ensures paths == if api.Some? then Count(apiPaths, api.value.apiPath) else apiPaths
  {
    var custom := ApplyCustomLogicFunctions(id, callbacks);
    step, paths := [create] + custom, apiPaths;
    if api.Some? {
      var route;
      route, paths := AddRoute(project, stage, stack, name, id, api.value, apiPaths);
      step := step + route;
    }
  }

  /** `for (const applyCustomLogic of customLogicFunctions) applyCustomLogic(nodeLambda)`. */
  method ApplyCustomLogicFunctions(id: string, callbacks: seq<nat>) returns (acts: seq<Action>)
    ensures acts == CustomLogicActions(id, callbacks)
  {
    acts := [];
    var j := 0;
    while j < |callbacks|
      invariant 0 <= j <= |callbacks|
      invariant acts == CustomLogicActions(id, callbacks[..j])
    {
      assert callbacks[..j + 1] == callbacks[..j] + [callbacks[j]];
      acts := acts + [ApplyCustomLogic(id, callbacks[j])];
      j := j + 1;
    }
    assert callbacks[..j] == callbacks;
  }

  /** The route of a definition whose function is `id`, counted in `apiPaths`. */
  method AddRoute(project: string, stage: string, stack: string, name: string, id: string, api: ApiRoute,
                  apiPaths: map<string, nat>)
    returns (route: seq<Action>, paths: map<string, nat>)
    requires forall p :: p in apiPaths ==> apiPaths[p] >= 1
    ensures route == RouteActions(project, stage, stack, name, id, api, api.apiPath !in apiPaths)
    ensures paths == Count(apiPaths, api.apiPath)
  {
    route := DeprecationActions(id, api.deprecation);
    route := route + [AddMethod(api.apiPath, api.httpMethod, id)];
    var first := api.apiPath !in apiPaths;
    if api.apiPath in apiPaths {
      paths := apiPaths[api.apiPath := apiPaths[api.apiPath] + 1];
    } else {
      paths := apiPaths[api.apiPath := 1];
    }
    if paths[api.apiPath] == 1 {
      route := route + [AddCorsOptions(CorsMethodId(project, stack, name, stage), api.apiPath)];
    }
    route := route + [AddPermission(id, PermissionId(project, stack, name, stage), api.apiPath, api.httpMethod)];
  }

  // ---------------------------------------------------------------------------
  // What the loop guarantees
  // ---------------------------------------------------------------------------

  /** The number of definitions in `defs` that add a method on path `p`. */
  function Occurrences(defs: seq<LambdaDefinition>, p: string): nat {
    if defs == [] then 0 else (if OnPath(defs[0], p) then 1 else 0) + Occurrences(defs[1..], p)
  }

  lemma {:induction false} OccurrencesSnoc(defs: seq<LambdaDefinition>, d: LambdaDefinition, p: string)
    ensures Occurrences(defs + [d], p) == Occurrences(defs, p) + if OnPath(d, p) then 1 else 0
  {
    if defs != [] {
      assert (defs + [d])[1..] == defs[1..] + [d];
      OccurrencesSnoc(defs[1..], d, p);
    }
  }

  lemma {:induction false} OccurrencesPositive(defs: seq<LambdaDefinition>, p: string)
    ensures Occurrences(defs, p) > 0 <==> exists i :: 0 <= i < |defs| && OnPath(defs[i], p)
  {
    if defs != [] {
      OccurrencesPositive(defs[1..], p);
      if exists i :: 0 <= i < |defs| && OnPath(defs[i], p) {
        var i :| 0 <= i < |defs| && OnPath(defs[i], p);
        if i > 0 { assert OnPath(defs[1..][i - 1], p); }
      }
      if exists i :: 0 <= i < |defs[1..]| && OnPath(defs[1..][i], p) {
        var i :| 0 <= i < |defs[1..]| && OnPath(defs[1..][i], p);
        assert OnPath(defs[i + 1], p);
      }
    }
  }

  /**
   * After the loop, the counter holds exactly the paths some definition adds
   * a method on, each with the number of such definitions.
   */
  lemma {:induction false} CountsAreOccurrences(defs: seq<LambdaDefinition>, p: string)
    ensures p in Counts(defs) <==> Occurrences(defs, p) > 0
    ensures p in Counts(defs) ==> Counts(defs)[p] == Occurrences(defs, p)
  {
    if defs != [] {
      var n := |defs| - 1;
      assert defs == defs[..n] + [defs[n]];
      CountsAreOccurrences(defs[..n], p);
      OccurrencesSnoc(defs[..n], defs[n], p);
    }
  }

  /** The number of actions of `acts` of kind `k`. */
  function CountOf(acts: seq<Action>, k: Kind): nat {
    if acts == [] then 0 else (if OfKind(acts[0], k) then 1 else 0) + CountOf(acts[1..], k)
  }

  lemma {:induction false} CountOfConcat(a: seq<Action>, b: seq<Action>, k: Kind)
    ensures CountOf(a + b, k) == CountOf(a, k) + CountOf(b, k)
  {
    if a == [] {
      assert a + b == b;
    } else {
      assert (a + b)[1..] == a[1..] + b;
      CountOfConcat(a[1..], b, k);
    }
  }

  lemma {:induction false} CountOfNone(a: seq<Action>, k: Kind)
    requires forall i :: 0 <= i < |a| ==> !OfKind(a[i], k)
    ensures CountOf(a, k) == 0
  {
    if a != [] {
      CountOfNone(a[1..], k);
    }
  }

  /** The kinds of action the guarantees below count. */
  datatype Kind = Creation | MethodOf(id: string) | PermissionOf(id: string) | CorsOn(path: string)

  predicate OfKind(a: Action, k: Kind) {
    match k
    case Creation => a.CreateFunction?
    case MethodOf(id) => a.AddMethod? && a.fn == id
    case PermissionOf(id) => a.AddPermission? && a.fn == id
    case CorsOn(p) => a.AddCorsOptions? && a.path == p
  }

  /**
   * The actions of one definition: a skipped definition does nothing; any
   * other starts by creating its one function, named after the project,
   * stack, name and stage; it adds one method and one invoke permission on
   * that function if it has a route, and none otherwise; and it adds an
   * OPTIONS method on path `p` exactly when its route is on `p` and it is
   * the first there.
   */
  lemma DefinitionActionCounts(project: string, stage: string, stack: string, c: CommonLambdaProps,
                               d: LambdaDefinition, firstOnPath: bool, p: string)
    ensures var acts := DefinitionActions(project, stage, stack, c, d, firstOnPath);
            var id := FunctionId(project, stack, d.name, stage);
            (d.skip ==> acts == [])
            && (!d.skip ==> acts[0] == CreateFunction(id, MergedProps(c, d, id)) && acts[0].props.functionName == id)
            && CountOf(acts, Creation) == (if d.skip then 0 else 1)
            && CountOf(acts, MethodOf(id)) == (if !d.skip && d.api.Some? then 1 else 0)
            && CountOf(acts, PermissionOf(id)) == (if !d.skip && d.api.Some? then 1 else 0)
            && CountOf(acts, CorsOn(p)) == (if OnPath(d, p) && firstOnPath then 1 else 0)
  {
    if !d.skip {
      var id := FunctionId(project, stack, d.name, stage);
      var create := CreateFunction(id, MergedProps(c, d, id));
      FunctionActionCounts(project, stage, stack, d.name, id, create, d.customLogicFunctions, d.api, firstOnPath, p);
    }
  }

  /** The counts for a function's actions, whatever its creation carries. */
  lemma FunctionActionCounts(project: string, stage: string, stack: string, name: string, id: string, create: Action,
                             callbacks: seq<nat>, api: Option<ApiRoute>, firstOnPath: bool, p: string)
    requires create.CreateFunction?
    ensures var acts := FunctionActions(project, stage, stack, name, id, create, callbacks, api, firstOnPath);
            acts[0] == create
            && CountOf(acts, Creation) == 1
            && CountOf(acts, MethodOf(id)) == (if api.Some? then 1 else 0)
            && CountOf(acts, PermissionOf(id)) == (if api.Some? then 1 else 0)
            && CountOf(acts, CorsOn(p)) == (if api.Some? && api.value.apiPath == p && firstOnPath then 1 else 0)
  {
    var custom := CustomLogicActions(id, callbacks);
    var route := if api.Some? then RouteActions(project, stage, stack, name, id, api.value, firstOnPath) else [];
    var parts := [create];
    assert parts[1..] == [];
    CountsOfParts(parts, custom, route, Creation);
    CountsOfParts(parts, custom, route, MethodOf(id));
    CountsOfParts(parts, custom, route, PermissionOf(id));
    CountsOfParts(parts, custom, route, CorsOn(p));
    CountOfNone(custom, Creation);
    CountOfNone(custom, MethodOf(id));
    CountOfNone(custom, PermissionOf(id));
    CountOfNone(custom, CorsOn(p));
    if api.Some? {
      RouteActionCounts(project, stage, stack, name, id, api.value, firstOnPath, p);
    }
  }

  /** A route adds one method and one permission on its function, and an OPTIONS method on its path when it is first. */
  lemma RouteActionCounts(project: string, stage: string, stack: string, name: string, id: string, api: ApiRoute, firstOnPath: bool, p: string)
    ensures var acts := RouteActions(project, stage, stack, name, id, api, firstOnPath);
            CountOf(acts, Creation) == 0
            && CountOf(acts, MethodOf(id)) == 1
            && CountOf(acts, PermissionOf(id)) == 1
            && CountOf(acts, CorsOn(p)) == (if api.apiPath == p && firstOnPath then 1 else 0)
  {
    var dep := DeprecationActions(id, api.deprecation);
    var added := [AddMethod(api.apiPath, api.httpMethod, id)];
    var cors := CorsActions(project, stage, stack, name, api.apiPath, firstOnPath);
    var permission := [AddPermission(id, PermissionId(project, stack, name, stage), api.apiPath, api.httpMethod)];
    RouteCounts(dep, added, cors, permission, Creation);
    RouteCounts(dep, added, cors, permission, MethodOf(id));
    RouteCounts(dep, added, cors, permission, PermissionOf(id));
    RouteCounts(dep, added, cors, permission, CorsOn(p));
    CountOfNone(dep, Creation);
    CountOfNone(dep, MethodOf(id));
    CountOfNone(dep, PermissionOf(id));
    CountOfNone(dep, CorsOn(p));
    CountOfNone(cors, Creation);
    CountOfNone(cors, MethodOf(id));
    CountOfNone(cors, PermissionOf(id));
    assert CountOf(added, MethodOf(id)) == 1 by { assert added[1..] == []; }
    assert CountOf(permission, PermissionOf(id)) == 1 by { assert permission[1..] == []; }
    assert CountOf(added, PermissionOf(id)) == 0 by { assert added[1..] == []; }
    assert CountOf(permission, MethodOf(id)) == 0 by { assert permission[1..] == []; }
    assert CountOf(added, Creation) == 0 by { assert added[1..] == []; }
    assert CountOf(permission, Creation) == 0 by { assert permission[1..] == []; }
    assert CountOf(added, CorsOn(p)) == 0 by { assert added[1..] == []; }
    assert CountOf(permission, CorsOn(p)) == 0 by { assert permission[1..] == []; }
    if firstOnPath {
      assert cors[1..] == [];
    }
  }

  lemma CountsOfParts(a: seq<Action>, b: seq<Action>, c: seq<Action>, k: Kind)
    ensures CountOf(a + b + c, k) == CountOf(a, k) + CountOf(b, k) + CountOf(c, k)
  {
    CountOfConcat(a + b, c, k);
    CountOfConcat(a, b, k);
  }

  lemma RouteCounts(a: seq<Action>, b: seq<Action>, c: seq<Action>, d: seq<Action>, k: Kind)
    ensures CountOf(a + b + c + d, k) == CountOf(a, k) + CountOf(b, k) + CountOf(c, k) + CountOf(d, k)
  {
    CountOfConcat(a + b + c, d, k);
    CountsOfParts(a, b, c, k);
  }

  /**
   * The loop adds exactly one OPTIONS method on every path some definition
   * adds a method on, and none on any other path.
   */
  lemma {:induction false} CorsOncePerPath(project: string, stage: string, stack: string, c: CommonLambdaProps,
                                           defs: seq<LambdaDefinition>, p: string)
    ensures CountOf(LoopActions(project, stage, stack, c, defs), CorsOn(p)) == if Occurrences(defs, p) > 0 then 1 else 0
  {
    if defs != [] {
      var n := |defs| - 1;
      var d := defs[n];
      assert defs == defs[..n] + [d];
      CorsOncePerPath(project, stage, stack, c, defs[..n], p);
      var first := FirstOnPath(Counts(defs[..n]), d);
      CountOfConcat(LoopActions(project, stage, stack, c, defs[..n]), DefinitionActions(project, stage, stack, c, d, first), CorsOn(p));
      DefinitionActionCounts(project, stage, stack, c, d, first, p);
      CountsAreOccurrences(defs[..n], p);
      OccurrencesSnoc(defs[..n], d, p);
    }
  }

  /**
   * The OPTIONS method of a path is added by the first definition on that
   * path, and by no later one.
   */
  lemma CorsAtFirstOccurrence(defs: seq<LambdaDefinition>, i: int)
    requires 0 <= i < |defs| && defs[i].api.Some?
    ensures FirstOnPath(Counts(defs[..i]), defs[i]) <==> forall j :: 0 <= j < i ==> !OnPath(defs[j], defs[i].api.value.apiPath)
  {
    var p := defs[i].api.value.apiPath;
    CountsAreOccurrences(defs[..i], p);
    OccurrencesPositive(defs[..i], p);
    if exists j :: 0 <= j < i && OnPath(defs[j], p) {
      var j :| 0 <= j < i && OnPath(defs[j], p);
      assert OnPath(defs[..i][j], p);
    }
  }

  /** A skipped definition changes nothing, wherever it stands in the list. */
  lemma {:induction false} SkippedDefinitionIsInert(project: string, stage: string, stack: string, c: CommonLambdaProps,
                                                    a: seq<LambdaDefinition>, d: LambdaDefinition, b: seq<LambdaDefinition>)
    requires d.skip
    ensures LoopActions(project, stage, stack, c, a + [d] + b) == LoopActions(project, stage, stack, c, a + b)
    decreases |b|
  {
    if b == [] {
      assert a + [d] + b == a + [d];
      assert a + b == a;
      LoopActionsSnoc(project, stage, stack, c, a, d);
    } else {
      var n := |b| - 1;
      SkippedDefinitionIsInert(project, stage, stack, c, a, d, b[..n]);
      SkippedCounts(a, d, b[..n]);
      SplitLast(a + [d], b);
      SplitLast(a, b);
      LoopActionsSnoc(project, stage, stack, c, a + [d] + b[..n], b[n]);
      LoopActionsSnoc(project, stage, stack, c, a + b[..n], b[n]);
    }
  }

  lemma TakeOneMore<T>(s: seq<T>, i: int)
    requires 0 <= i < |s|
    ensures s[..i + 1] == s[..i] + [s[i]]
  {
  }

  lemma TakeAll<T>(s: seq<T>)
    ensures s[..|s|] == s
  {
  }

  lemma SplitLast<T>(a: seq<T>, b: seq<T>)
    requires b != []
    ensures a + b == (a + b[..|b| - 1]) + [b[|b| - 1]]
  {
    assert b == b[..|b| - 1] + [b[|b| - 1]];
  }

  /** The loop over one more definition. */
  lemma LoopActionsSnoc(project: string, stage: string, stack: string, c: CommonLambdaProps, defs: seq<LambdaDefinition>, d: LambdaDefinition)
    ensures LoopActions(project, stage, stack, c, defs + [d])
            == LoopActions(project, stage, stack, c, defs) + DefinitionActions(project, stage, stack, c, d, FirstOnPath(Counts(defs), d))
    ensures Counts(defs + [d]) == Bump(Counts(defs), d)
  {
    var e := defs + [d];
    assert e[..|defs|] == defs && e[|defs|] == d;
    CountsSnoc(defs, d);
  }

  /** The counter after one more definition. */
  lemma CountsSnoc(defs: seq<LambdaDefinition>, d: LambdaDefinition)
    ensures Counts(defs + [d]) == Bump(Counts(defs), d)
  {
    assert (defs + [d])[..|defs|] == defs;
  }

  lemma {:induction false} SkippedCounts(a: seq<LambdaDefinition>, d: LambdaDefinition, b: seq<LambdaDefinition>)
    requires d.skip
    ensures Counts(a + [d] + b) == Counts(a + b)
    decreases |b|
  {
    var with := a + [d] + b;
    var without := a + b;
    if b == [] {
      assert with[..|with| - 1] == a && with[|with| - 1] == d;
      assert without == a;
    } else {
      var n := |b| - 1;
      SkippedCounts(a, d, b[..n]);
      assert with[..|with| - 1] == a + [d] + b[..n] && with[|with| - 1] == b[n];
      assert without[..|without| - 1] == a + b[..n] && without[|without| - 1] == b[n];
    }
  }

  /** A deprecated route tells its function so through three environment variables, before the method is added. */
  lemma DeprecatedRouteEnvironment(project: string, stage: string, stack: string, name: string, id: string, api: ApiRoute, firstOnPath: bool)
    requires api.deprecation.Some?
    ensures var acts := RouteActions(project, stage, stack, name, id, api, firstOnPath);
            var dep := api.deprecation.value;
            |acts| >= 4
            && acts[0] == AddEnvironment(id, "isDeprecated", "true")
            && acts[1] == AddEnvironment(id, "deprecationDate", dep.date)
            && acts[2] == AddEnvironment(id, "updatedApiVersion", IntToString(dep.updatedApiVersion))
            && acts[3] == AddMethod(api.apiPath, api.httpMethod, id)
  {
  }

  /** A route without deprecation sets no environment variable: its first action is the method. */
  lemma CurrentRouteEnvironment(project: string, stage: string, stack: string, name: string, id: string, api: ApiRoute, firstOnPath: bool)
    requires api.deprecation.None?
    ensures var acts := RouteActions(project, stage, stack, name, id, api, firstOnPath);
            acts[0] == AddMethod(api.apiPath, api.httpMethod, id)
            && forall i :: 0 <= i < |acts| ==> !acts[i].AddEnvironment?
  {
  }
}
