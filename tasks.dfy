/** The task declaration contract of `prefect/task.py`: how a Task fills in its fields from its
    arguments and the ambient context, how a Parameter looks itself up at run time, how the
    keyword-argument binding of a call is flattened, and the flat-dict serialization. */
module Tasks {
  import opened Common

  const TaskClass := "Task"
  const ParameterClass := "Parameter"

  /** The discriminator the serialization codec puts under `qualified_name` for a Parameter. */
  const QualifiedNameKey := "qualified_name"
  const ParameterQualifiedName := "prefect.task.Parameter"

  /** `prefect.triggers.all_successful`, the default trigger. */
  const AllSuccessful := Callable("prefect.triggers.all_successful")

  /** The keys `Task.serialize` writes, and the two a Parameter adds. */
  const TaskKeys: set<string> := {"name", "description", "max_retries", "retry_delay", "timeout", "trigger"}
  const ParameterKeys: set<string> := {"required", "default"}

  /** The entries of the ambient `prefect.context` the core reads; `None` is an absent key. */
  datatype Context = Context(
    group: Option<string>,
    tags: Option<seq<string>>,
    flow: Option<Flow>,
    parameters: Option<map<string, Value>>)

  /** The flow object of a context, as a frame. */
  function FlowFrame(ctx: Context): set<object> {
    if ctx.flow.Some? then {ctx.flow.value} else {}
  }

  /** The arguments of `Task.__init__`; omitted ones take the values of `DefaultArgs`. */
  datatype TaskArgs = TaskArgs(
    name: Option<string>,
    description: Value,
    group: Option<string>,
    tags: Option<seq<string>>,
    maxRetries: int,
    retryDelay: Duration,
    timeout: Option<Duration>,
    trigger: Option<Callable>,
    secrets: Value)

  const DefaultArgs := TaskArgs(None, NoneValue, None, None, 0, OneMinute, None, None, NoneValue)

  /** The arguments `Parameter.__init__` passes on: `super().__init__(name=name)`. */
  function ParameterArgs(name: string): TaskArgs {
    DefaultArgs.(name := Some(name))
  }

  // ------------------------------------------------------------------------------------------
  // Defaulting rules of the constructor

  /** `name or type(self).__name__`: a falsy name (None or "") is replaced by the class name. */
  function ResolveName(name: Option<string>, className: string): (r: string)
    requires className != ""
    ensures r != ""
    ensures r == className || (name == Some(r))
    ensures name.Some? && name.value != "" ==> r == name.value
  {
    if name.Some? && name.value != "" then name.value else className
  }

  /** `str(group or prefect.context.get('group', ''))`. */
  function ResolveGroup(group: Option<string>, ctx: Context): (r: string)
    ensures group.Some? && group.value != "" ==> r == group.value
    ensures (group.None? || group.value == "") && ctx.group.Some? ==> r == ctx.group.value
    ensures (group.None? || group.value == "") && ctx.group.None? ==> r == ""
  {
    if group.Some? && group.value != "" then group.value
    else if ctx.group.Some? then ctx.group.value
    else ""
  }

  /** `set(tags or prefect.context.get('tags', set()))`: an empty or missing tag list defers
      to the context, whose tags are taken even when empty. */
  function ResolveTags(tags: Option<seq<string>>, ctx: Context): (r: set<string>)
    ensures tags.Some? && |tags.value| > 0 ==> forall t :: t in r <==> t in tags.value
    ensures (tags.None? || |tags.value| == 0) ==> forall t :: t in r <==> (ctx.tags.Some? && t in ctx.tags.value)
  {
    var source := if tags.Some? && |tags.value| > 0 then tags.value
                  else if ctx.tags.Some? then ctx.tags.value
                  else [];
    set t | t in source
  }

  /** `trigger or prefect.triggers.all_successful`. */
  function ResolveTrigger(trigger: Option<Callable>): (r: Callable)
    ensures trigger.Some? ==> r == trigger.value
    ensures trigger.None? ==> r == AllSuccessful
  {
    if trigger.Some? then trigger.value else AllSuccessful
  }

  /** `if default is not None: required = False`: a default always makes a Parameter optional. */
  function ParameterRequired(default: Value, required: bool): (r: bool)
    ensures r <==> required && default == NoneValue
  {
    if default != NoneValue then false else required
  }

  /** A task declared with every argument omitted: named after its class, grouped and tagged
      as the context says, with no retries, a one-minute retry delay, no timeout, and the
      `all_successful` trigger. */
  lemma OmittedArgumentDefaults(t: Task, ctx: Context)
    requires t.className != "" && t.Declares(DefaultArgs, ctx)
    ensures t.name == t.className && t.description == NoneValue
    ensures t.group == (if ctx.group.Some? then ctx.group.value else "")
    ensures forall x :: x in t.tags <==> ctx.tags.Some? && x in ctx.tags.value
    ensures t.maxRetries == 0 && t.retryDelay == OneMinute && t.timeout == None
    ensures t.trigger == AllSuccessful && t.secrets == NoneValue
  {
  }

  // ------------------------------------------------------------------------------------------
  // Run-time errors

  /** `prefect.signals.FAIL(message)`, and the `NotImplementedError` of the abstract `Task.run`. */
  datatype RunError = Fail(message: string) | NotImplemented

  function MissingParameterMessage(name: string): string {
    "Parameter \"" + name + "\" was required but not provided."
  }

  /** `prefect.context.get('parameters', {})`. */
  function SuppliedParameters(ctx: Context): map<string, Value> {
    if ctx.parameters.Some? then ctx.parameters.value else map[]
  }

  // ------------------------------------------------------------------------------------------
  // Serialized form

  /** Raised by `deserialize`: a `KeyError`, or (model only) a value of an unexpected type. */
  datatype DeserializeError = MissingKey(key: string) | WrongType(key: string)

  function OptionalStrValue(o: Option<string>): Value {
    if o.Some? then StrValue(o.value) else NoneValue
  }

  function OptionalDeltaValue(o: Option<Duration>): Value {
    if o.Some? then DeltaValue(o.value) else NoneValue
  }

  function OptionalCallableValue(o: Option<Callable>): Value {
    if o.Some? then CallableValue(o.value) else NoneValue
  }

  /** `serialized[key]`. */
  function Lookup(m: map<string, Value>, key: string): (r: Result<Value, DeserializeError>)
    ensures r.Ok? <==> key in m
    ensures r.Ok? ==> r.value == m[key]
    ensures r.Err? ==> r.error == MissingKey(key)
  {
    if key in m then Ok(m[key]) else Err(MissingKey(key))
  }

  function DecodeOptionalStr(m: map<string, Value>, key: string): Result<Option<string>, DeserializeError> {
    match Lookup(m, key)
    case Err(e) => Err(e)
    case Ok(NoneValue) => Ok(None)
    case Ok(StrValue(s)) => Ok(Some(s))
    case Ok(_) => Err(WrongType(key))
  }

  function DecodeInt(m: map<string, Value>, key: string): Result<int, DeserializeError> {
    match Lookup(m, key)
    case Err(e) => Err(e)
    case Ok(IntValue(i)) => Ok(i)
    case Ok(_) => Err(WrongType(key))
  }

  function DecodeBool(m: map<string, Value>, key: string): Result<bool, DeserializeError> {
    match Lookup(m, key)
    case Err(e) => Err(e)
    case Ok(BoolValue(b)) => Ok(b)
    case Ok(_) => Err(WrongType(key))
  }

  function DecodeDelta(m: map<string, Value>, key: string): Result<Duration, DeserializeError> {
    match Lookup(m, key)
    case Err(e) => Err(e)
    case Ok(DeltaValue(d)) => Ok(d)
    case Ok(_) => Err(WrongType(key))
  }

  function DecodeOptionalDelta(m: map<string, Value>, key: string): Result<Option<Duration>, DeserializeError> {
    match Lookup(m, key)
    case Err(e) => Err(e)
    case Ok(NoneValue) => Ok(None)
    case Ok(DeltaValue(d)) => Ok(Some(d))
    case Ok(_) => Err(WrongType(key))
  }

  function DecodeOptionalCallable(m: map<string, Value>, key: string): Result<Option<Callable>, DeserializeError> {
    match Lookup(m, key)
    case Err(e) => Err(e)
    case Ok(NoneValue) => Ok(None)
    case Ok(CallableValue(f)) => Ok(Some(f))
    case Ok(_) => Err(WrongType(key))
  }

  /** The value shapes the decoder accepts under each serialized key. */
  predicate WellFormedTaskDict(m: map<string, Value>) {
    && TaskKeys <= m.Keys
    && (m["name"].NoneValue? || m["name"].StrValue?)
    && m["max_retries"].IntValue?
    && m["retry_delay"].DeltaValue?
    && (m["timeout"].NoneValue? || m["timeout"].DeltaValue?)
    && (m["trigger"].NoneValue? || m["trigger"].CallableValue?)
  }

  /** The keyword arguments `Task.deserialize` passes to `Task(...)`, read in argument order;
      group, tags and secrets are not serialized and keep their defaults. */
  function DecodeTaskArgs(m: map<string, Value>): (r: Result<TaskArgs, DeserializeError>)
    ensures r.Ok? <==> WellFormedTaskDict(m)
    ensures r.Err? ==> r.error.key in TaskKeys
    ensures r.Err? && r.error.MissingKey? ==> r.error.key !in m
    ensures r.Ok? ==>
      && m["name"] == OptionalStrValue(r.value.name)
      && m["description"] == r.value.description
      && m["max_retries"] == IntValue(r.value.maxRetries)
      && m["retry_delay"] == DeltaValue(r.value.retryDelay)
      && m["timeout"] == OptionalDeltaValue(r.value.timeout)
      && m["trigger"] == OptionalCallableValue(r.value.trigger)
      && r.value.group == None && r.value.tags == None && r.value.secrets == NoneValue
  {
    match DecodeOptionalStr(m, "name")
    case Err(e) => Err(e)
    case Ok(name) =>
      match Lookup(m, "description")
      case Err(e) => Err(e)
      case Ok(description) =>
        match DecodeInt(m, "max_retries")
        case Err(e) => Err(e)
        case Ok(maxRetries) =>
          match DecodeDelta(m, "retry_delay")
          case Err(e) => Err(e)
          case Ok(retryDelay) =>
            match DecodeOptionalDelta(m, "timeout")
            case Err(e) => Err(e)
            case Ok(timeout) =>
              match DecodeOptionalCallable(m, "trigger")
              case Err(e) => Err(e)
              case Ok(trigger) =>
                Ok(DefaultArgs.(name := name, description := description, maxRetries := maxRetries,
                                retryDelay := retryDelay, timeout := timeout, trigger := trigger))
  }

  /** `serialized['required']` then `serialized['default']`, as `Parameter.deserialize` reads them. */
  function DecodeParameterAttrs(m: map<string, Value>): (r: Result<(bool, Value), DeserializeError>)
    ensures r.Ok? <==> "required" in m && m["required"].BoolValue? && "default" in m
    ensures r.Ok? ==> m["required"] == BoolValue(r.value.0) && m["default"] == r.value.1
    ensures r.Err? ==> r.error.key in ParameterKeys
  {
    match DecodeBool(m, "required")
    case Err(e) => Err(e)
    case Ok(required) =>
      match Lookup(m, "default")
      case Err(e) => Err(e)
      case Ok(default) => Ok((required, default))
  }

  /** `serialized.get('qualified_name') == 'prefect.task.Parameter'`. */
  predicate IsParameterTagged(m: map<string, Value>) {
    QualifiedNameKey in m && m[QualifiedNameKey] == StrValue(ParameterQualifiedName)
  }

  /** The dict after `Task.deserialize` has popped the discriminator, if it was a Parameter's. */
  function Untagged(m: map<string, Value>): (r: map<string, Value>)
    ensures IsParameterTagged(m) ==> r.Keys == m.Keys - {QualifiedNameKey}
    ensures !IsParameterTagged(m) ==> r == m
    ensures forall k :: k in r ==> k in m && r[k] == m[k]
    ensures !IsParameterTagged(r)
  {
    if IsParameterTagged(m) then m - {QualifiedNameKey} else m
  }

  /** The exception `Parameter.deserialize(m)` raises, if any. */
  function ParameterDeserializeFailure(m: map<string, Value>): Option<DeserializeError> {
    var m1 := Untagged(m);
    match DecodeTaskArgs(m1)
    case Err(e) => Some(e)
    case Ok(_) =>
      match DecodeParameterAttrs(m1)
      case Err(e) => Some(e)
      case Ok(_) => None
  }

  /** The exception `Task.deserialize(m)` raises, if any. */
  function DeserializeFailure(m: map<string, Value>): (r: Option<DeserializeError>)
    ensures r.None? <==> WellFormedTaskDict(Untagged(m)) && (IsParameterTagged(m) ==> DecodeParameterAttrs(Untagged(m)).Ok?)
  {
    if IsParameterTagged(m) then ParameterDeserializeFailure(m)
    else match DecodeTaskArgs(m)
      case Err(e) => Some(e)
      case Ok(_) => None
  }

  // ------------------------------------------------------------------------------------------
  // Keyword binding in `__call__`

  datatype ParamKind = PositionalOnly | PositionalOrKeyword | VarPositional | KeywordOnly | VarKeyword
  datatype SigParam = SigParam(name: string, kind: ParamKind)

  /** The signature of a task's `run` method (self excluded), as `inspect` reports it. */
  datatype Signature = Signature(parameters: seq<SigParam>)

  /** `tuple(inspect.signature(self.run).parameters.keys())`. */
  function Inputs(sig: Signature): (r: seq<string>)
    ensures |r| == |sig.parameters|
    ensures forall i :: 0 <= i < |r| ==> r[i] == sig.parameters[i].name
    decreases |sig.parameters|
  {
    if sig.parameters == [] then []
    else [sig.parameters[0].name] + Inputs(Signature(sig.parameters[1..]))
  }

  /** `inspect.getfullargspec(self.run).varkw`: the name of the `**` parameter, if any. */
  function VarKeywordName(sig: Signature): (r: Option<string>)
    ensures r.None? <==> forall i :: 0 <= i < |sig.parameters| ==> sig.parameters[i].kind != VarKeyword
    ensures r.Some? ==> exists i :: 0 <= i < |sig.parameters| && sig.parameters[i] == SigParam(r.value, VarKeyword)
    decreases |sig.parameters|
  {
    if sig.parameters == [] then None
    else if sig.parameters[0].kind == VarKeyword then Some(sig.parameters[0].name)
    else
      var rest := VarKeywordName(Signature(sig.parameters[1..]));
      assert forall i :: 1 <= i < |sig.parameters| ==> sig.parameters[i] == sig.parameters[1..][i - 1];
      rest
  }

  /** One entry of `BoundArguments.arguments`: a bound value, or the dict `bind` packs the
      extra keyword arguments into under the name of the `**` parameter. */
  datatype Bound<T> = Arg(value: T) | Packed(entries: map<string, T>)

  /** `callargs.update(callargs.pop(var_kw_arg, {}))`. */
  function ExpandVarKeyword<T>(callargs: map<string, Bound<T>>, varkw: Option<string>): (r: map<string, Bound<T>>)
    requires varkw.Some? && varkw.value in callargs ==> callargs[varkw.value].Packed?
    ensures varkw.None? || varkw.value !in callargs ==> r == callargs
    ensures varkw.Some? && varkw.value in callargs ==>
      var packed := callargs[varkw.value].entries;
      && r.Keys == (callargs.Keys - {varkw.value}) + packed.Keys
      && (forall k :: k in packed ==> r[k] == Arg(packed[k]))
      && (forall k :: k in callargs && k != varkw.value && k !in packed ==> r[k] == callargs[k])
  {
    if varkw.None? || varkw.value !in callargs then callargs
    else
      var packed := callargs[varkw.value].entries;
      map k | k in (callargs.Keys - {varkw.value}) + packed.Keys ::
        if k in packed then Arg(packed[k]) else callargs[k]
  }

  /** The `keyword_results` that `__call__` hands to `set_dependencies`: the bound arguments
      with the `**` parameter's dict replaced by its entries. When that dict was the only
      packed entry, every result is a plain value. */
  function KeywordResults<T>(sig: Signature, callargs: map<string, Bound<T>>): (r: map<string, Bound<T>>)
    requires VarKeywordName(sig).Some? && VarKeywordName(sig).value in callargs ==>
               callargs[VarKeywordName(sig).value].Packed?
    ensures VarKeywordName(sig).None? ==> r == callargs
    ensures VarKeywordName(sig).Some? && VarKeywordName(sig).value in callargs ==>
      var packed := callargs[VarKeywordName(sig).value].entries;
      && r.Keys == (callargs.Keys - {VarKeywordName(sig).value}) + packed.Keys
      && (forall k :: k in packed ==> r[k] == Arg(packed[k]))
      && (forall k :: k in callargs && k != VarKeywordName(sig).value && k !in packed ==> r[k] == callargs[k])
    ensures (forall k :: k in callargs && callargs[k].Packed? ==> VarKeywordName(sig) == Some(k)) ==>
              forall k :: k in r ==> r[k].Arg?
  {
    ExpandVarKeyword(callargs, VarKeywordName(sig))
  }

  /** For `run(self, a, b, **kwargs)` called with extra keywords, the keyword results name
      `a`, `b` and every extra keyword, and nothing else. */
  lemma ExtraKeywordsAreFlattened<T>(a: T, b: T, extras: map<string, T>)
    requires "a" !in extras && "b" !in extras
    ensures var sig := Signature([SigParam("a", PositionalOrKeyword), SigParam("b", PositionalOrKeyword),
                                  SigParam("kwargs", VarKeyword)]);
            var r := KeywordResults(sig, map["a" := Arg(a), "b" := Arg(b), "kwargs" := Packed(extras)]);
            && Inputs(sig) == ["a", "b", "kwargs"]
            && r.Keys == {"a", "b"} + extras.Keys
            && r["a"] == Arg(a) && r["b"] == Arg(b)
            && forall k :: k in extras ==> r[k] == Arg(extras[k])
  {
    var sig := Signature([SigParam("a", PositionalOrKeyword), SigParam("b", PositionalOrKeyword),
                          SigParam("kwargs", VarKeyword)]);
    var callargs := map["a" := Arg(a), "b" := Arg(b), "kwargs" := Packed(extras)];
    assert VarKeywordName(sig) == Some("kwargs");
    assert callargs.Keys - {"kwargs"} == {"a", "b"};
  }

  // ------------------------------------------------------------------------------------------
  // Objects

  /** A flow the context may hold; `Flow.add_task` itself is not part of this model, only the
      calls made to it. */
  class Flow {
    /** The tasks passed to `add_task`, in call order. */
    var added: seq<Task>

    constructor ()
      ensures added == []
    {
      added := [];
    }
  }

  /** A dict shared by reference with the caller of `deserialize`, which pops from it. */
  class Dict {
    var entries: map<string, Value>

    constructor (entries: map<string, Value>)
      ensures this.entries == entries
    {
      this.entries := entries;
    }
  }

  /** The task has been appended to the context's flow, if there is one. */
  twostate predicate RegisteredOnce(ctx: Context, new t: Task)
    reads FlowFrame(ctx)
  {
    ctx.flow.Some? ==> ctx.flow.value.added == old(ctx.flow.value.added) + [t]
  }

  class Task {
    /** `type(self).__name__`. */
    const className: string
    var name: string
    var description: Value
    var group: string
    var tags: set<string>
    var maxRetries: int
    var retryDelay: Duration
    var timeout: Option<Duration>
    var trigger: Callable
    var secrets: Value
    /** The attributes a Parameter carries; `None` while the attribute is unset. */
    var required: Option<bool>
    var default: Option<Value>

    /** What every constructed task satisfies: a non-empty name, a known class, and the
        Parameter attributes on a Parameter. */
    ghost predicate Valid()
      reads this
    {
      && name != ""
      && (className == TaskClass || className == ParameterClass)
      && (className == ParameterClass ==> required.Some? && default.Some?)
    }

    /** The fields `Task.__init__` sets from `args` in the context `ctx`. */
    ghost predicate Declares(args: TaskArgs, ctx: Context)
      reads this
      requires className != ""
    {
      && name == ResolveName(args.name, className)
      && description == args.description
      && group == ResolveGroup(args.group, ctx)
      && tags == ResolveTags(args.tags, ctx)
      && maxRetries == args.maxRetries
      && retryDelay == args.retryDelay
      && timeout == args.timeout
      && trigger == ResolveTrigger(args.trigger)
      && secrets == args.secrets
    }

    /** `Task(...)`. */
    constructor (args: TaskArgs, ctx: Context)
      modifies FlowFrame(ctx)
      ensures className == TaskClass && Declares(args, ctx) && Valid()
      ensures required == None && default == None
      ensures RegisteredOnce(ctx, this)
    {
      className := TaskClass;
      required, default := None, None;
      new;
      Init(args, ctx);
    }

    /** `Parameter(name, default, required)`: the Parameter attributes are set first, then
        `super().__init__(name=name)` runs. */
    constructor Parameter(name: string, default: Value, required: bool, ctx: Context)
      modifies FlowFrame(ctx)
      ensures className == ParameterClass && Declares(ParameterArgs(name), ctx) && Valid()
      ensures this.required == Some(ParameterRequired(default, required))
      ensures this.default == Some(default)
      ensures RegisteredOnce(ctx, this)
    {
      className := ParameterClass;
      this.required := Some(ParameterRequired(default, required));
      this.default := Some(default);
      new;
      Init(ParameterArgs(name), ctx);
    }

    /** The body of `Task.__init__`: assign the fields, then register with the context's flow. */
    method Init(args: TaskArgs, ctx: Context)
      requires className != ""
      modifies this, FlowFrame(ctx)
      ensures Declares(args, ctx)
      ensures required == old(required) && default == old(default)
      ensures RegisteredOnce(ctx, this)
    {
      name := ResolveName(args.name, className);
      description := args.description;
      group := ResolveGroup(args.group, ctx);
      tags := ResolveTags(args.tags, ctx);
      maxRetries := args.maxRetries;
      retryDelay := args.retryDelay;
      timeout := args.timeout;
      trigger := ResolveTrigger(args.trigger);
      secrets := args.secrets;
      if ctx.flow.Some? {
        var flow := ctx.flow.value;
        flow.added := flow.added + [this];
      }
    }

    /** `run()`: `Parameter.run` on a Parameter, the abstract `Task.run` otherwise. */
    function Run(ctx: Context): (r: Result<Value, RunError>)
      reads this
      requires className == ParameterClass ==> required.Some? && default.Some?
      ensures className != ParameterClass ==> r == Err(NotImplemented)
      ensures className == ParameterClass ==>
                (r.Err? <==> required.value && name !in SuppliedParameters(ctx))
      ensures className == ParameterClass && r.Err? ==> r.error == Fail(MissingParameterMessage(name))
      ensures r.Ok? && name in SuppliedParameters(ctx) ==> r.value == SuppliedParameters(ctx)[name]
      ensures r.Ok? && name !in SuppliedParameters(ctx) ==> r.value == default.value
    {
      if className != ParameterClass then Err(NotImplemented)
      else
        var params := SuppliedParameters(ctx);
        if required.value && name !in params then Err(Fail(MissingParameterMessage(name)))
        else if name in params then Ok(params[name])
        else Ok(default.value)
    }

    /** `serialize()`: `Parameter.serialize` on a Parameter, `Task.serialize` otherwise. */
    function Serialize(): (m: map<string, Value>)
      reads this
      requires className == ParameterClass ==> required.Some? && default.Some?
      ensures m.Keys == if className == ParameterClass then TaskKeys + ParameterKeys else TaskKeys
      ensures && m["name"] == StrValue(name)
              && m["description"] == description
              && m["max_retries"] == IntValue(maxRetries)
              && m["retry_delay"] == DeltaValue(retryDelay)
              && m["timeout"] == OptionalDeltaValue(timeout)
              && m["trigger"] == CallableValue(trigger)
      ensures className == ParameterClass ==>
                m["required"] == BoolValue(required.value) && m["default"] == default.value
    {
      var serialized := map[
        "name" := StrValue(name),
        "description" := description,
        "max_retries" := IntValue(maxRetries),
        "retry_delay" := DeltaValue(retryDelay),
        "timeout" := OptionalDeltaValue(timeout),
        "trigger" := CallableValue(trigger)];
      if className == ParameterClass then
        serialized["required" := BoolValue(required.value)]["default" := default.value]
      else serialized
    }

    /** `Task.deserialize(serialized)`. A Parameter's dict loses its discriminator and goes to
        `Parameter.deserialize`; otherwise a `Task(...)` is built from the six serialized fields
        (registering with the context's flow). `built` is the task object constructed, if the
        call got that far, whether or not it then raised. */
    static method Deserialize(d: Dict, ctx: Context) returns (r: Result<Task, DeserializeError>, ghost built: Option<Task>)
      modifies d, FlowFrame(ctx)
      decreases if IsParameterTagged(d.entries) then 1 else 0, 0
      ensures d.entries == Untagged(old(d.entries))
      ensures r.Err? <==> DeserializeFailure(old(d.entries)).Some?
      ensures r.Err? ==> r.error == DeserializeFailure(old(d.entries)).value
      ensures r.Ok? ==> built == Some(r.value)
      ensures built.Some? ==> fresh(built.value) && RegisteredOnce(ctx, built.value)
      ensures built.None? ==> unchanged(FlowFrame(ctx))
      ensures BuiltFrom(built, Untagged(old(d.entries)), IsParameterTagged(old(d.entries)), ctx)
    {
      if IsParameterTagged(d.entries) {
        d.entries := d.entries - {QualifiedNameKey};
        r, built := DeserializeParameter(d, ctx);
        return;
      }
      var args := DecodeTaskArgs(d.entries);
      if args.Err? {
        r, built := Err(args.error), None;
        return;
      }
      var t := new Task(args.value, ctx);
      r, built := Ok(t), Some(t);
    }

    /** `Parameter.deserialize(serialized)`: builds through `Task.deserialize`, then sets
        `required` and `default` on the object it got back. */
    static method DeserializeParameter(d: Dict, ctx: Context) returns (r: Result<Task, DeserializeError>, ghost built: Option<Task>)
      modifies d, FlowFrame(ctx)
      decreases if IsParameterTagged(d.entries) then 1 else 0, 1
      ensures d.entries == Untagged(old(d.entries))
      ensures r.Err? <==> ParameterDeserializeFailure(old(d.entries)).Some?
      ensures r.Err? ==> r.error == ParameterDeserializeFailure(old(d.entries)).value
      ensures r.Ok? ==> built == Some(r.value)
      ensures built.Some? ==> fresh(built.value) && RegisteredOnce(ctx, built.value)
      ensures built.None? ==> unchanged(FlowFrame(ctx))
      ensures BuiltFrom(built, Untagged(old(d.entries)), true, ctx)
    {
      r, built := Deserialize(d, ctx);
      if r.Err? {
        return;
      }
      var parameter := r.value;
      var required := DecodeBool(d.entries, "required");
      if required.Err? {
        r := Err(required.error);
        return;
      }
      parameter.required := Some(required.value);
      var default := Lookup(d.entries, "default");
      if default.Err? {
        r := Err(default.error);
        return;
      }
      parameter.default := Some(default.value);
    }
  }

  /** `built` is what deserializing the (untagged) dict `m` constructs: nothing if the six
      fields do not decode, else a `Task` declared from them, carrying the Parameter
      attributes that were assigned before any error. */
  ghost predicate BuiltFrom(built: Option<Task>, m: map<string, Value>, parameter: bool, ctx: Context)
    reads if built.Some? then {built.value} else {}
  {
    match DecodeTaskArgs(m)
    case Err(_) => built.None?
    case Ok(args) =>
      && built.Some?
      && built.value.className == TaskClass
      && built.value.Declares(args, ctx)
      && built.value.required ==
           (if parameter && DecodeBool(m, "required").Ok? then Some(DecodeBool(m, "required").value) else None)
      && built.value.default ==
           (if parameter && DecodeParameterAttrs(m).Ok? then Some(DecodeParameterAttrs(m).value.1) else None)
  }

  // ------------------------------------------------------------------------------------------
  // Round trips

  /** The six serialized fields of any task decode back to constructor arguments that
      reproduce them. */
  lemma SerializeDecodeRoundTrip(t: Task)
    requires t.Valid()
    ensures DecodeTaskArgs(t.Serialize()).Ok?
    ensures var args := DecodeTaskArgs(t.Serialize()).value;
      && ResolveName(args.name, TaskClass) == t.name
      && args.description == t.description
      && args.maxRetries == t.maxRetries
      && args.retryDelay == t.retryDelay
      && args.timeout == t.timeout
      && ResolveTrigger(args.trigger) == t.trigger
  {
    var m := t.Serialize();
    assert WellFormedTaskDict(m);
  }

  /** A Parameter's dict, tagged by the codec, deserializes without error and restores
      `required` and `default`. */
  lemma ParameterDictRoundTrip(p: Task)
    requires p.Valid() && p.className == ParameterClass
    ensures var m := p.Serialize()[QualifiedNameKey := StrValue(ParameterQualifiedName)];
      && IsParameterTagged(m)
      && Untagged(m) == p.Serialize()
      && DeserializeFailure(m) == None
      && DecodeParameterAttrs(Untagged(m)) == Ok((p.required.value, p.default.value))
  {
    var s := p.Serialize();
    var m := s[QualifiedNameKey := StrValue(ParameterQualifiedName)];
    assert QualifiedNameKey !in s;
    assert Untagged(m) == s;
    assert WellFormedTaskDict(s);
  }

  /** `Task.deserialize(t.serialize())` on a live object: the result has the six serialized
      fields of `t`; group and tags come from the context again. */
  method RoundTrip(t: Task, ctx: Context) returns (u: Task)
    requires t.Valid()
    modifies FlowFrame(ctx)
    ensures u.className == TaskClass && u.required == None && u.default == None
    ensures && u.name == t.name && u.description == t.description
            && u.maxRetries == t.maxRetries && u.retryDelay == t.retryDelay
            && u.timeout == t.timeout && u.trigger == t.trigger
    ensures u.group == ResolveGroup(None, ctx) && u.tags == ResolveTags(None, ctx)
  {
    var s := t.Serialize();
    SerializeDecodeRoundTrip(t);
    assert QualifiedNameKey !in s;
    var d := new Dict(s);
    var r;
    ghost var built;
    r, built := Task.Deserialize(d, ctx);
    u := r.value;
  }

  /** A tagged Parameter dict comes back as a `Task`-class object carrying the Parameter's
      fields and attributes; serializing that object again drops `required` and `default`. */
  method ParameterRoundTrip(p: Task, ctx: Context) returns (u: Task)
    requires p.Valid() && p.className == ParameterClass
    modifies FlowFrame(ctx)
    ensures u.className == TaskClass
    ensures && u.name == p.name && u.description == p.description
            && u.maxRetries == p.maxRetries && u.retryDelay == p.retryDelay
            && u.timeout == p.timeout && u.trigger == p.trigger
    ensures u.required == p.required && u.default == p.default
    ensures u.Serialize().Keys == TaskKeys
  {
    var s := p.Serialize();
    SerializeDecodeRoundTrip(p);
    ParameterDictRoundTrip(p);
    var d := new Dict(s[QualifiedNameKey := StrValue(ParameterQualifiedName)]);
    var r;
    ghost var built;
    r, built := Task.Deserialize(d, ctx);
    u := r.value;
  }
}
