/** `prefect.runtime.task_run`: attributes of the current task run, read from the ambient
    task-run context, with empty values when there is none. */
module RuntimeTaskRun {
  import opened Common
  import Strings

  const ModuleName: string := "prefect.runtime.task_run"

  datatype TaskRun = TaskRun(id: Uuid, name: string, tags: seq<string>)

  /** What `TaskRunContext.get()` returns when a task is running. */
  datatype TaskRunContext = TaskRunContext(taskRun: TaskRun, parameters: map<string, Value>)

  /** `__all__`, in declaration order. */
  const All: seq<string> := ["id", "tags", "name", "parameters"]

  /** `get_id`: the run's id as text, `None` outside a task run. */
  function GetId(ctx: Option<TaskRunContext>): (r: Option<string>)
    ensures r.None? <==> ctx.None?
    ensures ctx.Some? ==> r.value == ctx.value.taskRun.id.text
  {
    if ctx.Some? then Some(ctx.value.taskRun.id.text) else None
  }

  /** `get_tags`: the run's tags, the empty list outside a task run. */
  function GetTags(ctx: Option<TaskRunContext>): (r: seq<string>)
    ensures ctx.None? ==> r == []
    ensures ctx.Some? ==> r == ctx.value.taskRun.tags
  {
    if ctx.None? then [] else ctx.value.taskRun.tags
  }

  /** `get_name`: the run's name, `None` outside a task run. */
  function GetName(ctx: Option<TaskRunContext>): (r: Option<string>)
    ensures r.None? <==> ctx.None?
    ensures ctx.Some? ==> r.value == ctx.value.taskRun.name
  {
    if ctx.None? then None else Some(ctx.value.taskRun.name)
  }

  /** `get_parameters`: the parameters the task was called with, `{}` outside a task run. */
  function GetParameters(ctx: Option<TaskRunContext>): (r: map<string, Value>)
    ensures ctx.None? ==> r == map[]
    ensures ctx.Some? ==> r == ctx.value.parameters
  {
    if ctx.Some? then ctx.value.parameters else map[]
  }

  /** The entries of `FIELDS`. */
  datatype Field = IdField | TagsField | NameField | ParametersField

  const Fields: map<string, Field> := map["id" := IdField, "tags" := TagsField, "name" := NameField, "parameters" := ParametersField]

  function OptionalText(s: Option<string>): Value {
    if s.Some? then StrValue(s.value) else NoneValue
  }

  function TextList(items: seq<string>): (r: Value)
    ensures r.ListValue? && |r.items| == |items|
    ensures forall i :: 0 <= i < |items| ==> r.items[i] == StrValue(items[i])
  {
    ListValue(seq(|items|, i requires 0 <= i < |items| => StrValue(items[i])))
  }

  /** Calls the getter a field names. */
  function Get(f: Field, ctx: Option<TaskRunContext>): Value {
    match f
    case IdField => OptionalText(GetId(ctx))
    case TagsField => TextList(GetTags(ctx))
    case NameField => OptionalText(GetName(ctx))
    case ParametersField => DictValue(GetParameters(ctx))
  }

  /** The `AttributeError` raised for an unknown attribute: the module and the name asked for. */
  datatype AttributeError = AttributeError(moduleName: string, attribute: string)

  /** The module's `__getattr__`. */
  function GetAttr(name: string, ctx: Option<TaskRunContext>): (r: Result<Value, AttributeError>)
    ensures r.Err? <==> name !in Fields
    ensures r.Err? ==> r.error == AttributeError(ModuleName, name)
    ensures name == "id" ==> r == Ok(OptionalText(GetId(ctx)))
    ensures name == "tags" ==> r == Ok(TextList(GetTags(ctx)))
    ensures name == "name" ==> r == Ok(OptionalText(GetName(ctx)))
    ensures name == "parameters" ==> r == Ok(DictValue(GetParameters(ctx)))
  {
    if name in Fields then Ok(Get(Fields[name], ctx)) else Err(AttributeError(ModuleName, name))
  }

  /** The module's `__dir__`: `sorted(__all__)`. */
  function Dir(): (r: seq<string>)
    ensures Strings.Sorted(r) && multiset(r) == multiset(All)
  {
    Strings.Sort(All)
  }

  /** `__all__` and `FIELDS` name the same attributes. */
  lemma AllNamesTheFields()
    ensures forall n :: n in All <==> n in Fields
  {
  }

  /** The listing, spelled out. */
  lemma DirSpelledOut()
    ensures Dir() == ["id", "name", "parameters", "tags"]
  {
    var expected := ["id", "name", "parameters", "tags"];
    assert Strings.LexLe("id", "name") && Strings.LexLe("name", "parameters") && Strings.LexLe("parameters", "tags");
    assert Strings.Sorted(expected);
    assert multiset(expected) == multiset(All);
    Strings.SortedArrangementUnique(Dir(), expected);
  }

  /** `__getattr__` succeeds exactly on the names `__dir__` lists. */
  lemma DirListsReadableAttributes(name: string, ctx: Option<TaskRunContext>)
    ensures GetAttr(name, ctx).Ok? <==> name in Dir()
  {
    assert name in Dir() <==> name in multiset(All);
  }

  /** Outside a task run every attribute reads as an empty value. */
  lemma EmptyOutsideTaskRun(name: string)
    requires name in Fields
    ensures var r := GetAttr(name, None);
      r.Ok? && r.value in {NoneValue, ListValue([]), DictValue(map[])}
  {
    assert TextList([]) == ListValue([]);
  }
}
