/** `prefect.runtime.deployment`: attributes of the deployment behind the current flow run,
    from the ambient flow-run context, the `PREFECT__FLOW_RUN_ID` environment variable, or
    the API's record of that flow run. The API read is the parameter `fetch`. */
module RuntimeDeployment {
  import opened Common
  import Strings

  const ModuleName: string := "prefect.runtime.deployment"

  /** The environment variable naming the current flow run. */
  const FlowRunIdVariable: string := "PREFECT__FLOW_RUN_ID"

  /** The process environment. */
  type Environment = map<string, string>

  /** The ambient flow-run context, seen through `getattr(ctx, "deployment_id", None)`. */
  datatype FlowRunContext = FlowRunContext(deploymentId: Option<Uuid>)

  /** The API's record of a flow run: `deployment_id` and `parameters` may be null. */
  datatype FlowRun = FlowRun(deploymentId: Option<Uuid>, parameters: Option<map<string, Value>>)

  /** Reads a flow run from the API by id (`_get_flow_run`). */
  type Fetch = string -> FlowRun

  /** `__all__`, in declaration order. */
  const All: seq<string> := ["id", "flow_run_id", "parameters"]

  /** `get_flow_run_id`: `os.getenv("PREFECT__FLOW_RUN_ID")`, set even when empty. */
  function GetFlowRunId(env: Environment): (r: Option<string>)
    ensures r.Some? <==> FlowRunIdVariable in env
    ensures r.Some? ==> r.value == env[FlowRunIdVariable]
  {
    if FlowRunIdVariable in env then Some(env[FlowRunIdVariable]) else None
  }

  /** `get_id`: the context's deployment id if it has one; otherwise the deployment of the
      flow run the environment names, read from the API; otherwise `None`. */
  function GetId(ctx: Option<FlowRunContext>, env: Environment, fetch: Fetch): (r: Option<string>)
    ensures ctx.Some? && ctx.value.deploymentId.Some? ==> r == Some(ctx.value.deploymentId.value.text)
    ensures (ctx.None? || ctx.value.deploymentId.None?) ==>
      if GetFlowRunId(env).None? then r.None?
      else
        var fetched := fetch(GetFlowRunId(env).value);
        (r.Some? <==> fetched.deploymentId.Some?) && (r.Some? ==> r.value == fetched.deploymentId.value.text)
  {
    var deploymentId := if ctx.Some? then ctx.value.deploymentId else None;
    if deploymentId.None? then
      var runId := GetFlowRunId(env);
      if runId.None? then None
      else
        var flowRun := fetch(runId.value);
        if flowRun.deploymentId.Some? then Some(flowRun.deploymentId.value.text) else None
    else Some(deploymentId.value.text)
  }

  /** `get_parameters`: the parameters of the flow run the environment names, `{}` when no
      run is named or the record has none. */
  function GetParameters(env: Environment, fetch: Fetch): (r: map<string, Value>)
    ensures GetFlowRunId(env).None? ==> r == map[]
    ensures GetFlowRunId(env).Some? ==>
      var fetched := fetch(GetFlowRunId(env).value);
      r == if fetched.parameters.Some? then fetched.parameters.value else map[]
  {
    var runId := GetFlowRunId(env);
    if runId.None? then map[]
    else
      var flowRun := fetch(runId.value);
      if flowRun.parameters.Some? && flowRun.parameters.value != map[] then flowRun.parameters.value else map[]
  }

  /** The entries of `FIELDS`. */
  datatype Field = IdField | FlowRunIdField | ParametersField

  const Fields: map<string, Field> := map["id" := IdField, "flow_run_id" := FlowRunIdField, "parameters" := ParametersField]

  function OptionalText(s: Option<string>): Value {
    if s.Some? then StrValue(s.value) else NoneValue
  }

  /** Calls the getter a field names. */
  function Get(f: Field, ctx: Option<FlowRunContext>, env: Environment, fetch: Fetch): Value {
    match f
    case IdField => OptionalText(GetId(ctx, env, fetch))
    case FlowRunIdField => OptionalText(GetFlowRunId(env))
    case ParametersField => DictValue(GetParameters(env, fetch))
  }

  datatype AttributeError = AttributeError(moduleName: string, attribute: string)

  /** The module's `__getattr__`. */
  function GetAttr(name: string, ctx: Option<FlowRunContext>, env: Environment, fetch: Fetch): (r: Result<Value, AttributeError>)
    ensures r.Err? <==> name !in Fields
    ensures r.Err? ==> r.error == AttributeError(ModuleName, name)
    ensures name == "id" ==> r == Ok(OptionalText(GetId(ctx, env, fetch)))
    ensures name == "flow_run_id" ==> r == Ok(OptionalText(GetFlowRunId(env)))
    ensures name == "parameters" ==> r == Ok(DictValue(GetParameters(env, fetch)))
  {
    if name in Fields then Ok(Get(Fields[name], ctx, env, fetch)) else Err(AttributeError(ModuleName, name))
  }

  /** The module's `__dir__`: `sorted(__all__)`. */
  function Dir(): (r: seq<string>)
    ensures Strings.Sorted(r) && multiset(r) == multiset(All)
  {
    Strings.Sort(All)
  }

  lemma AllNamesTheFields()
    ensures forall n :: n in All <==> n in Fields
  {
  }

  lemma DirSpelledOut()
    ensures Dir() == ["flow_run_id", "id", "parameters"]
  {
    var expected := ["flow_run_id", "id", "parameters"];
    assert Strings.LexLe("flow_run_id", "id") && Strings.LexLe("id", "parameters");
    assert Strings.Sorted(expected);
    assert multiset(expected) == multiset(All);
    Strings.SortedArrangementUnique(Dir(), expected);
  }

  /** `__getattr__` succeeds exactly on the names `__dir__` lists. */
  lemma DirListsReadableAttributes(name: string, ctx: Option<FlowRunContext>, env: Environment, fetch: Fetch)
    ensures GetAttr(name, ctx, env, fetch).Ok? <==> name in Dir()
  {
    assert name in Dir() <==> name in multiset(All);
  }

  /** Without a flow run in the environment, and no deployment in the context, every
      attribute reads as an empty value and the API is never consulted. */
  lemma EmptyOutsideDeploymentRun(name: string, ctx: Option<FlowRunContext>, env: Environment, fetch: Fetch)
    requires name in Fields && FlowRunIdVariable !in env && (ctx.None? || ctx.value.deploymentId.None?)
    ensures var r := GetAttr(name, ctx, env, fetch);
      r.Ok? && r.value in {NoneValue, DictValue(map[])}
  {
  }

  /** The note "all attributes will return empty values" covers only the case above: a flow
      run named by the environment whose record has no deployment reads `id` as `None` but
      still reports its run id and its parameters. */
  lemma FlowRunWithoutDeployment(ctx: Option<FlowRunContext>, env: Environment, fetch: Fetch)
    requires FlowRunIdVariable in env && (ctx.None? || ctx.value.deploymentId.None?)
    requires fetch(env[FlowRunIdVariable]).deploymentId.None?
    ensures GetAttr("id", ctx, env, fetch) == Ok(NoneValue)
    ensures GetAttr("flow_run_id", ctx, env, fetch) == Ok(StrValue(env[FlowRunIdVariable]))
    ensures var params := fetch(env[FlowRunIdVariable]).parameters;
      GetAttr("parameters", ctx, env, fetch) == Ok(DictValue(if params.Some? then params.value else map[]))
  {
  }

  /** The API is only read when the context has no deployment id: with one, or with no flow
      run in the environment, any two readers give the same attributes. */
  lemma FetchOnlyWhenNeeded(name: string, ctx: Option<FlowRunContext>, env: Environment, fetch1: Fetch, fetch2: Fetch)
    requires FlowRunIdVariable !in env || (name == "id" && ctx.Some? && ctx.value.deploymentId.Some?)
    ensures GetAttr(name, ctx, env, fetch1) == GetAttr(name, ctx, env, fetch2)
  {
  }

  /** An empty `PREFECT__FLOW_RUN_ID` still names a run, and the API is asked for it. */
  lemma EmptyRunIdIsFetched(fetch: Fetch)
    ensures GetParameters(map[FlowRunIdVariable := ""], fetch) ==
      (if fetch("").parameters.Some? then fetch("").parameters.value else map[])
  {
  }
}
