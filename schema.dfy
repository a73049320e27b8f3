/** The schema-level declarations of `OrionDBInterface`: the metadata naming convention,
    the explicitly named indexes, and the columns each upsert conflicts on. */
module Schema {
  import opened Common
  import Strings

  // ------------------------------------------------------------------------------------------
  // Naming convention

  /** The five templated kinds of the metadata's `naming_convention`. */
  datatype Kind = Ix | Uq | Ck | Fk | Pk

  /** What the templates may mention of a constraint. */
  datatype Constraint = Constraint(table: string, columns: seq<string>, constraintName: string, referredTable: string)

  function Prefix(k: Kind): (r: string)
    ensures |r| == 3 && r[2] == '_'
  {
    match k
    case Ix => "ix_"
    case Uq => "uq_"
    case Ck => "ck_"
    case Fk => "fk_"
    case Pk => "pk_"
  }

  /** `%(column_0_N_name)s`: every column name, joined by underscores. */
  function ColumnsToken(columns: seq<string>): (r: string)
    ensures |columns| == 1 ==> r == columns[0]
    ensures |columns| > 1 ==> r == columns[0] + "_" + ColumnsToken(columns[1..])
  {
    Strings.Join(columns, "_")
  }

  /** What the template of a kind other than `pk` puts after the table name and `__`. */
  function Suffix(k: Kind, c: Constraint): string {
    match k
    case Ix => ColumnsToken(c.columns)
    case Uq => ColumnsToken(c.columns)
    case Ck => c.constraintName
    case Fk => ColumnsToken(c.columns) + "__" + c.referredTable
    case Pk => ""
  }

  /** The name the convention gives a constraint of kind `k`. */
  function ConventionName(k: Kind, c: Constraint): (r: string)
    ensures |r| >= 3 + |c.table| && r[..3] == Prefix(k) && r[3..3 + |c.table|] == c.table
    ensures k == Pk ==> |r| == 3 + |c.table|
    ensures k != Pk ==> |r| >= 5 + |c.table| && r[3 + |c.table|..5 + |c.table|] == "__"
    ensures k in {Ix, Uq} ==> r[5 + |c.table|..] == ColumnsToken(c.columns)
    ensures k == Ck ==> r[5 + |c.table|..] == c.constraintName
    ensures k == Fk ==> r[5 + |c.table|..] == ColumnsToken(c.columns) + "__" + c.referredTable
  {
    var head := Prefix(k) + c.table;
    if k == Pk then head
    else
      var rest := Suffix(k, c);
      var r := head + "__" + rest;
      assert r[..|head|] == head;
      assert r[|head|..|head| + 2] == "__";
      assert r[|head| + 2..] == rest;
      r
  }

  /** Constraints of different kinds never get the same name. */
  lemma DistinctKindsDistinctNames(k1: Kind, c1: Constraint, k2: Kind, c2: Constraint)
    requires k1 != k2
    ensures ConventionName(k1, c1) != ConventionName(k2, c2)
  {
    assert ConventionName(k1, c1)[0] == Prefix(k1)[0];
    assert ConventionName(k2, c2)[0] == Prefix(k2)[0];
  }

  /** The double underscore after the table name keeps an index on `flow_run.state_type`
      apart from one on `flow_run_state.type`, which a single underscore would confuse. */
  lemma DoubleUnderscoreSeparatesTable()
    ensures ConventionName(Ix, Constraint("flow_run", ["state_type"], "", "")) !=
            ConventionName(Ix, Constraint("flow_run_state", ["type"], "", ""))
    ensures Prefix(Ix) + "flow_run" + "_" + "state_type" == Prefix(Ix) + "flow_run_state" + "_" + "type"
  {
    var a := ConventionName(Ix, Constraint("flow_run", ["state_type"], "", ""));
    var b := ConventionName(Ix, Constraint("flow_run_state", ["type"], "", ""));
    assert a[12] == '_';
    assert b[3..17] == "flow_run_state";
    assert b[12] == b[3..17][9] == 's';
  }

  // ------------------------------------------------------------------------------------------
  // ORM models and their declared indexes

  datatype OrmModel = Flow | FlowRunState | TaskRunState | TaskRunStateCache | FlowRun | TaskRun | Deployment | SavedSearch

  /** `column`, `column.asc()` or `column.desc()`. */
  datatype Direction = Unspecified | Asc | Desc
  datatype IndexColumn = IndexColumn(column: string, direction: Direction)

  datatype IndexDecl = IndexDecl(name: string, model: OrmModel, columns: seq<IndexColumn>, unique: bool)

  function ColumnNames(cs: seq<IndexColumn>): (r: seq<string>)
    ensures |r| == |cs| && forall i :: 0 <= i < |cs| ==> r[i] == cs[i].column
  {
    if cs == [] then [] else [cs[0].column] + ColumnNames(cs[1..])
  }

  function Plain(column: string): IndexColumn { IndexColumn(column, Unspecified) }

  /** The sixteen indexes `create_orm_models` declares, in order. Each is on one to three
      columns, and no model has two unique ones, so an upsert's unique index is unambiguous. */
  function DeclaredIndexes(): (r: seq<IndexDecl>)
    ensures |r| == 16
    ensures forall i :: 0 <= i < |r| ==> 1 <= |r[i].columns| <= 3
    ensures forall i, j :: 0 <= i < j < |r| && r[i].unique && r[j].unique ==> r[i].model != r[j].model
  {
    [
    IndexDecl("uq_flow_run_state__flow_run_id_timestamp_desc", FlowRunState,
              [Plain("flow_run_id"), IndexColumn("timestamp", Desc)], true),
    IndexDecl("uq_task_run_state__task_run_id_timestamp_desc", TaskRunState,
              [Plain("task_run_id"), IndexColumn("timestamp", Desc)], true),
    IndexDecl("ix_task_run_state_cache__cache_key_created_desc", TaskRunStateCache,
              [Plain("cache_key"), IndexColumn("created", Desc)], false),
    IndexDecl("uq_flow_run__flow_id_idempotency_key", FlowRun,
              [Plain("flow_id"), Plain("idempotency_key")], true),
    IndexDecl("ix_flow_run__expected_start_time_desc", FlowRun, [IndexColumn("expected_start_time", Desc)], false),
    IndexDecl("ix_flow_run__next_scheduled_start_time_asc", FlowRun,
              [IndexColumn("next_scheduled_start_time", Asc)], false),
    IndexDecl("ix_flow_run__end_time_desc", FlowRun, [IndexColumn("end_time", Desc)], false),
    IndexDecl("ix_flow_run__start_time", FlowRun, [Plain("start_time")], false),
    IndexDecl("ix_flow_run__state_type", FlowRun, [Plain("state_type")], false),
    IndexDecl("uq_task_run__flow_run_id_task_key_dynamic_key", TaskRun,
              [Plain("flow_run_id"), Plain("task_key"), Plain("dynamic_key")], true),
    IndexDecl("ix_task_run__expected_start_time_desc", TaskRun, [IndexColumn("expected_start_time", Desc)], false),
    IndexDecl("ix_task_run__next_scheduled_start_time_asc", TaskRun,
              [IndexColumn("next_scheduled_start_time", Asc)], false),
    IndexDecl("ix_task_run__end_time_desc", TaskRun, [IndexColumn("end_time", Desc)], false),
    IndexDecl("ix_task_run__start_time", TaskRun, [Plain("start_time")], false),
    IndexDecl("ix_task_run__state_type", TaskRun, [Plain("state_type")], false),
    IndexDecl("uq_deployment__flow_id_name", Deployment, [Plain("flow_id"), Plain("name")], true)
    ]
  }

  /** All sixteen names are distinct. */
  lemma DeclaredIndexNamesDistinct()
    ensures forall i, j :: 0 <= i < j < |DeclaredIndexes()| ==> DeclaredIndexes()[i].name != DeclaredIndexes()[j].name
  {
  }

  // ------------------------------------------------------------------------------------------
  // Upserts

  /** The `*_unique_upsert_columns` properties: the columns an upsert of the model conflicts on. */
  function UpsertColumns(m: OrmModel): (r: Option<seq<string>>)
    ensures r.Some? <==> m in {Flow, FlowRun, TaskRun, Deployment, SavedSearch}
    ensures r.Some? ==> r.value != [] && r.value[|r.value| - 1] in {"name", "idempotency_key", "dynamic_key"}
    ensures m in {Flow, SavedSearch} ==> r == Some(["name"])
  {
    match m
    case Deployment => Some(["flow_id", "name"])
    case FlowRun => Some(["flow_id", "idempotency_key"])
    case Flow => Some(["name"])
    case SavedSearch => Some(["name"])
    case TaskRun => Some(["flow_run_id", "task_key", "dynamic_key"])
    case _ => None
  }

  /** An upsert's conflict target must be a unique index of its table; for flow runs, task
      runs and deployments that index is one of the declared ones, with the same columns in
      the same order. */
  lemma UpsertColumnsAreDeclaredUniqueIndexes(m: OrmModel)
    requires m in {FlowRun, TaskRun, Deployment}
    ensures exists i :: 0 <= i < |DeclaredIndexes()| && DeclaredIndexes()[i].unique && DeclaredIndexes()[i].model == m &&
              UpsertColumns(m) == Some(ColumnNames(DeclaredIndexes()[i].columns))
  {
    var i := match m case FlowRun => 3 case TaskRun => 9 case _ => 15;
    var ix := DeclaredIndexes()[i];
    assert ColumnNames(ix.columns) == UpsertColumns(m).value;
  }
}
