# Prefect core declarations, database configuration and runtime accessors in Dafny

This project models three parts of Prefect and proves properties about them.

- **Task declarations** (`prefect/task.py`):
  - how a `Task` sets its fields from its arguments and the ambient `prefect.context`, and registers itself with the context's flow;
  - how a `Parameter` forces `required = False` when it has a default, and how it looks up its value at run time or fails;
  - how the flat-dict `serialize`/`deserialize` pair round-trips, including the `qualified_name` discriminator that sends a Parameter's dict to `Parameter.deserialize`;
  - how `__call__` flattens the bound `**kwargs` entry.
- **Database configuration** (`src/prefect/orion/database/configurations.py`):
  - the engine options each dialect selects;
  - the process-wide `ENGINES` and `SESSION_FACTORIES` caches, as a `Caches` object whose maps are updated in place;
  - the PRAGMAs `setup_sqlite` issues;
  - the two SQL shapes that attach freshly inserted states to freshly inserted flow runs, evaluated over a run table and a state table;
  - the metadata naming convention;
  - the declared indexes and the upsert conflict columns.
- **Runtime accessors** (`src/prefect/runtime/task_run.py` and `src/prefect/runtime/deployment.py`):
  - total getters over an optional ambient context, the process environment and an abstract `fetch` of the API's flow-run record;
  - dispatch through `FIELDS`;
  - `__dir__`.

Files:
- `common.dfy`: `Option`, `Result`, `Duration`, `Uuid`, and `Value`, the Python values that pass through.
- `strings.dfy`: Python's `in` on strings, `str.join`, string order, and `sorted`.
- `tasks.dfy`
- `configurations.dfy`
- `schema.dfy`
- `runtime_task_run.dfy`
- `runtime_deployment.dfy`

Inputs the model takes as parameters instead of reading them itself:
- the event loop, as `LoopId`;
- the database part of a sqlite URL, and whether that file exists;
- the process environment;
- the API read of a flow run, as `fetch`;
- the ambient contexts.

## Model

| member | source | states |
|---|---|---|
| Tasks.ResolveName | prefect/task.py:24 | The name is never empty. A truthy given name is kept; otherwise the class name is used. |
| Tasks.ResolveGroup | prefect/task.py:27 | The group is the given group if truthy, else the context's `group`, else `''`. |
| Tasks.ResolveTags | prefect/task.py:29 | The tags are the set of the given tags if non-empty, else of the context's `tags`, else empty. |
| Tasks.ResolveTrigger | prefect/task.py:34 | A missing trigger becomes `prefect.triggers.all_successful`. |
| Tasks.OmittedArgumentDefaults | prefect/task.py:18-34 | A task declared with no arguments is named after its class. Its group is the context's or `''`. Its tags are exactly the context's tags, or none. It has no description, `max_retries = 0`, a one-minute retry delay, no timeout, trigger `all_successful` and no secrets. |
| Tasks.ParameterRequired | prefect/task.py:156-159 | A Parameter is required exactly when `required` was passed true and the default is None. |
| Tasks.Task.constructor | prefect/task.py:12-40 | A `Task` holds the resolved fields of its arguments, has no Parameter attributes, and is appended once to the context's flow. |
| Tasks.Task.Parameter | prefect/task.py:145-162 | A `Parameter` holds `required` (forced false by a default) and `default`, and runs the Task initialiser with only its name. |
| Tasks.Task.Init | prefect/task.py:24-40 | Assigns every field from its defaulting rule, leaves the Parameter attributes alone, and registers with the context's flow when there is one. |
| Tasks.Task.Run | prefect/task.py:164-170 | A Parameter fails with `Parameter "<name>" was required but not provided.` exactly when it is required and unsupplied. Otherwise it returns the supplied value, or the default. A plain Task raises `NotImplementedError` (lines 50-69). |
| Tasks.Task.Serialize | prefect/task.py:111-121 | Exactly the six keys `name, description, max_retries, retry_delay, timeout, trigger` with the object's values. A Parameter adds exactly `required` and `default` (lines 172-175). |
| Tasks.Lookup | prefect/task.py:130-135 | `serialized[key]`: the value when the key is present, else a `KeyError` naming that key. |
| Tasks.DecodeTaskArgs | prefect/task.py:129-135 | Decoding succeeds exactly on a dict whose six keys hold values of the decoded types (a string or None for `name`, any value for `description`, an int for `max_retries`, a duration for `retry_delay`, a duration or None for `timeout`, a callable or None for `trigger`). A failure names one of those keys. The decoded arguments re-encode to the dict's entries. Group, tags and secrets keep their defaults. |
| Tasks.DecodeParameterAttrs | prefect/task.py:180-181 | `required` then `default` are read; decoding succeeds exactly when both are present and `required` holds a bool. A failure names one of these two keys. |
| Tasks.Untagged | prefect/task.py:125-126 | Only a dict tagged `prefect.task.Parameter` loses exactly its `qualified_name` entry. Nothing else changes, and the result is no longer tagged. |
| Tasks.DeserializeFailure | prefect/task.py:124-137 | Deserializing raises exactly when the untagged dict lacks one of the six fields or holds a value of the wrong type under one, or, for a tagged dict, when `required` or `default` is missing or `required` is not a bool. |
| Tasks.Task.Deserialize | prefect/task.py:124-137 | Pops the discriminator in place and dispatches to the Parameter path. Fails exactly as `DeserializeFailure` says. Otherwise it returns a fresh `Task`-class object declared from the dict and registered once. An early failure touches no flow. |
| Tasks.Task.DeserializeParameter | prefect/task.py:177-182 | Builds through `Deserialize`, then sets `required` and `default` on that object in that order. A missing key raises after the attributes before it were set. |
| Tasks.SerializeDecodeRoundTrip | prefect/task.py:111-137 | The serialized dict of any task decodes. The arguments decoded from it reproduce the task's six serialized fields. |
| Tasks.ParameterDictRoundTrip | prefect/task.py:172-182 | A Parameter's dict, once tagged, deserializes without error. It yields exactly the Parameter's `required` and `default`. |
| Tasks.RoundTrip | prefect/task.py:111-137 | `Task.deserialize(t.serialize())` has `t`'s six serialized fields. Its group and tags are re-derived from the context. |
| Tasks.ParameterRoundTrip | prefect/task.py:124-182 | A tagged Parameter dict comes back as a `Task`-class object with the Parameter's fields, `required` and `default`. Serializing it again emits only the six Task keys. |
| Tasks.Inputs | prefect/task.py:47-48 | The names of the `run` parameters, in signature order. |
| Tasks.VarKeywordName | prefect/task.py:79 | The name of the `**` parameter, or None exactly when there is none. |
| Tasks.ExpandVarKeyword | prefect/task.py:80 | The `**` entry is removed and its contents merged in. Every other entry is unchanged. With no `**` entry the map is unchanged. |
| Tasks.KeywordResults | prefect/task.py:79-80 | The `**` parameter the signature names is replaced by its entries, each a plain value, and every other entry it does not shadow is kept; without one the bound arguments pass unchanged. When that parameter held the only packed entry, every keyword result is a plain value. |
| Tasks.ExtraKeywordsAreFlattened | prefect/task.py:73-80 | For `run(a, b, **kwargs)`, the keyword results hold `a`, `b` and each extra keyword, and nothing else. |
| Configurations.PostgresEngineOptions | src/prefect/orion/database/configurations.py:366-372 | No `connect_args` without a timeout, else `{command_timeout: timeout}`. The default pool. |
| Configurations.SqliteEngineOptions | src/prefect/orion/database/configurations.py:464-475 | No `connect_args` without a timeout, else `{timeout: timeout}`. `SingletonThreadPool` exactly when the URL contains `:memory:`. |
| Configurations.OptionsDifferOnlyInTimeoutKey | src/prefect/orion/database/configurations.py:366-370 | Outside in-memory URLs the dialects pass the same options except for the name of the timeout key (lines 464-468). |
| Configurations.InMemoryUrlUsesSingletonPool | src/prefect/orion/database/configurations.py:470-473 | The URL `sqlite+aiosqlite:///:memory:` selects the single-connection pool. |
| Configurations.SetupSqlite | src/prefect/orion/database/configurations.py:523-540 | In order: foreign keys on, WAL journal mode, a 60000 ms busy timeout, then a commit. Every statement before the commit is a PRAGMA. |
| Configurations.SessionFactory.constructor | src/prefect/orion/database/configurations.py:397-407 | A factory bound to the engine with `future=True`, `expire_on_commit=False`, scoped to the current task. |
| Configurations.Caches.constructor | src/prefect/orion/database/configurations.py:28-29 | Both caches start empty. |
| Configurations.Caches.PostgresEngine | src/prefect/orion/database/configurations.py:363-375 | On a miss, exactly one fresh engine is stored under `(loop, url, echo, timeout)`. On a hit, the stored engine is returned with `ENGINES` unchanged. Other keys and the factory cache are untouched. The cache invariant is kept. |
| Configurations.Caches.SqliteEngine | src/prefect/orion/database/configurations.py:461-487 | As for Postgres. A new engine runs `setup_sqlite` on connect. `create_db` is recorded before the store exactly when the database is in memory or its file does not exist. |
| Configurations.Caches.SessionFactoryFor | src/prefect/orion/database/configurations.py:393-409 | Keyed by `(loop, bind)`: created once per key, returned unchanged later, always with `expire_on_commit=False`. The engine cache is untouched. |
| Configurations.Caches.SqliteSessionFactory | src/prefect/orion/database/configurations.py:503-521 | The factory is the cached one for the cached engine of the arguments. Each cache is unchanged on a hit. An engine miss stores exactly one fresh engine and records `create_db` exactly when the database is new. A factory miss stores exactly one fresh factory. |
| Configurations.NewDatabaseCases | src/prefect/orion/database/configurations.py:479-483 | A missing database file is always new. `:memory:` and a `mode=memory` URI are new even when a file of that name exists. An existing file counts as new only when its name marks it as in memory. |
| Configurations.SameKeySameEngine | src/prefect/orion/database/configurations.py:363-375 | Two requests with the same key return the same engine, and the second adds nothing. |
| Configurations.EnginesArePerLoop | src/prefect/orion/database/configurations.py:344-347 | Two event loops never receive the same engine. |
| Configurations.StateIds | src/prefect/orion/database/configurations.py:422 | `[r["id"] for r in insert_flow_run_states]`, as a set: every id, and nothing else. |
| Configurations.FirstMatch | src/prefect/orion/database/configurations.py:549-556 | The scalar subquery returns NULL exactly when no inserted state of the run exists. Otherwise it returns one such state. |
| Configurations.PostgresAttach | src/prefect/orion/database/configurations.py:417-428 | Only listed runs change. A listed run with a matching inserted state gets one. Any other run keeps its `state_id`. |
| Configurations.SqliteAttach | src/prefect/orion/database/configurations.py:548-566 | Only listed runs change. A listed run gets a matching inserted state, or NULL if there is none. |
| Configurations.AttachStatement | src/prefect/orion/database/configurations.py:258-265 | Under either dialect, unlisted runs keep their state. A changed run gets NULL or a matching inserted state. A listed run with a match gets one. |
| Configurations.UniqueMatchOutcomesAgree | src/prefect/orion/database/configurations.py:542-566 | When each listed run has exactly one matching inserted state, every outcome of the sqlite statement equals every outcome of the Postgres one (lines 411-428). |
| Configurations.MatchedRunsAttachAlike | src/prefect/orion/database/configurations.py:548-566 | When every listed run has a match, the two statements give the same table for the same scan order. |
| Configurations.UnmatchedRunDiffers | src/prefect/orion/database/configurations.py:417-428 | A listed run without a match keeps its state under Postgres and becomes NULL under sqlite (lines 548-566). |
| Configurations.UnmatchedRunExample | src/prefect/orion/database/configurations.py:548-566 | A concrete instance of that difference: run 1 listed, its inserted state belonging to run 2. |
| Schema.ColumnsToken | src/prefect/orion/database/configurations.py:81 | `column_0_N_name`: the column names joined by `_`. |
| Schema.ConventionName | src/prefect/orion/database/configurations.py:80-86 | Every name starts with its kind's prefix and the table name. `pk_<table>` ends there; all others continue with `__` and then: the `_`-joined columns for `ix` and `uq`, the constraint name for `ck`, the columns, `__` and the referred table for `fk`. |
| Schema.DistinctKindsDistinctNames | src/prefect/orion/database/configurations.py:80-86 | Constraints of different kinds never share a name. |
| Schema.DoubleUnderscoreSeparatesTable | src/prefect/orion/database/configurations.py:58-60 | The `__` after the table keeps `flow_run.state_type` and `flow_run_state.type` apart, which a single `_` would give the same name. |
| Schema.DeclaredIndexes | src/prefect/orion/database/configurations.py:128-210 | Sixteen indexes, each on one to three columns. No model has two unique ones, so each upsert's conflict target is unambiguous. |
| Schema.DeclaredIndexNamesDistinct | src/prefect/orion/database/configurations.py:128-210 | The sixteen declared index names are pairwise distinct. |
| Schema.UpsertColumns | src/prefect/orion/database/configurations.py:229-256 | Exactly Flow, FlowRun, TaskRun, Deployment and SavedSearch have upsert columns. Each list is non-empty and ends in `name`, `idempotency_key` or `dynamic_key`. Flows and saved searches conflict on `name` alone. |
| Schema.UpsertColumnsAreDeclaredUniqueIndexes | src/prefect/orion/database/configurations.py:148-209 | For flow runs, task runs and deployments, the upsert columns are, in order, the columns of a declared unique index on that model. |
| Strings.Sort | src/prefect/runtime/task_run.py:33 | `sorted`: an ordered permutation. `Strings.SortedArrangementUnique` shows it is the only one. |
| RuntimeTaskRun.GetId | src/prefect/runtime/task_run.py:36-39 | `str(task_run.id)` in a task run, None exactly outside one. |
| RuntimeTaskRun.GetTags | src/prefect/runtime/task_run.py:42-47 | `[]` outside a task run, else the run's tags. |
| RuntimeTaskRun.GetName | src/prefect/runtime/task_run.py:50-55 | None exactly outside a task run, else the run's name. |
| RuntimeTaskRun.GetParameters | src/prefect/runtime/task_run.py:58-63 | `{}` outside a task run, else the context's parameters. |
| RuntimeTaskRun.GetAttr | src/prefect/runtime/task_run.py:19-29 | An `AttributeError` naming the module and the name exactly when the name is not in `FIELDS`. Otherwise the getter's value. |
| RuntimeTaskRun.Dir | src/prefect/runtime/task_run.py:32-33 | A sorted permutation of `__all__`. |
| RuntimeTaskRun.AllNamesTheFields | src/prefect/runtime/task_run.py:66-71 | The keys of `FIELDS` are exactly the names in `__all__` (line 16). |
| RuntimeTaskRun.DirSpelledOut | src/prefect/runtime/task_run.py:16 | `__dir__()` is `["id", "name", "parameters", "tags"]`. |
| RuntimeTaskRun.DirListsReadableAttributes | src/prefect/runtime/task_run.py:19-33 | `__getattr__` succeeds exactly when `__dir__` lists the name. |
| RuntimeTaskRun.EmptyOutsideTaskRun | src/prefect/runtime/task_run.py:4 | Without a task run every attribute reads as None, `[]` or `{}`. |
| RuntimeDeployment.GetFlowRunId | src/prefect/runtime/deployment.py:79-80 | The value of `PREFECT__FLOW_RUN_ID` (even when empty), or None exactly when it is unset. |
| RuntimeDeployment.GetId | src/prefect/runtime/deployment.py:50-65 | A context deployment id is returned as text. Without one: None if no run id is set, else the fetched run's deployment id as text, or None. |
| RuntimeDeployment.GetParameters | src/prefect/runtime/deployment.py:68-76 | `{}` without a run id, else the fetched run's parameters, or `{}` when they are null. |
| RuntimeDeployment.GetAttr | src/prefect/runtime/deployment.py:33-43 | An `AttributeError` exactly when the name is not in `FIELDS`. Otherwise the getter's value. |
| RuntimeDeployment.Dir | src/prefect/runtime/deployment.py:46-47 | A sorted permutation of `__all__`. |
| RuntimeDeployment.AllNamesTheFields | src/prefect/runtime/deployment.py:83 | The keys of `FIELDS` are exactly the names in `__all__` (line 30). |
| RuntimeDeployment.DirSpelledOut | src/prefect/runtime/deployment.py:30 | `__dir__()` is `["flow_run_id", "id", "parameters"]`. |
| RuntimeDeployment.DirListsReadableAttributes | src/prefect/runtime/deployment.py:30-47 | `__getattr__` succeeds exactly when `__dir__` lists the name. |
| RuntimeDeployment.EmptyOutsideDeploymentRun | src/prefect/runtime/deployment.py:4 | With no deployment in the context and no run id set, every attribute reads as None or `{}`. |
| RuntimeDeployment.FlowRunWithoutDeployment | src/prefect/runtime/deployment.py:50-80 | A run named by the environment whose record has no deployment reads `id` as None, yet `flow_run_id` is the run id and `parameters` the record's. |
| RuntimeDeployment.FetchOnlyWhenNeeded | src/prefect/runtime/deployment.py:50-76 | With no run id set, or for `id` with a context deployment id, the attributes do not depend on the API read. |
| RuntimeDeployment.EmptyRunIdIsFetched | src/prefect/runtime/deployment.py:68-76 | An empty `PREFECT__FLOW_RUN_ID` still counts as a run id, and its record is fetched. |

## Left out

**Task declarations**
- Tasks.DecodeTaskArgs: a value of an unexpected Python type under a serialized key is an error (`WrongType`) in the model. Python would store it unchecked. The model's fields are typed, so this path is model only.
- Tasks.DecodeParameterAttrs: likewise, a non-bool `required` is a `WrongType` error in the model, where Python would store it unchecked.
- Tasks.DeserializeFailure: it inherits both `WrongType` paths, so it fails on ill-typed values that Python would accept.
- Tasks.ResolveGroup: group and context entries are strings in the model. The `str(...)` conversion of a non-string group is not modelled, and neither is a context `group`/`tags` entry present with the value None.
- Tasks.ResolveTags: the tags are a list of strings. Other iterables accepted by `set(...)` are not modelled.
- Tasks.Task.constructor and Tasks.Task.Init: `Flow.add_task` is external. The model records the calls made to it in `Flow.added`, and adds no validation of its own.
- `Task.__call__`: the `inspect.signature(...).bind` step, its `BindingError`, and the forwarding to `set_dependencies`, including creating a `Flow()` when the context has none, are foreign calls. Only the var-keyword expansion is modelled, with the bound arguments as an input map.
- The serialization codec that adds `qualified_name` to a Parameter's dict is not part of this model. `Tasks.ParameterDictRoundTrip` adds the tag itself.
- `Task.__repr__` (lines 42-43) is formatting only.
- `prefect/context.py` is not part of this model. The contexts are records of the entries the core reads.

**Database configuration**
- Configurations.Caches.SqliteEngine: `engine.url.database` and `os.path.exists` are inputs (`database`, `fileExists`). `create_db` itself is SQLAlchemy metadata work, so it is only recorded as a request in `schemaCreations`.
- Configurations.Caches.SqliteEngine: `database` is always a string in the model. A URL with no database part (`sqlite+aiosqlite://`) gives None in SQLAlchemy, and `":memory:" in None` raises `TypeError` at line 480; that failure is not modelled.
- Configurations.Caches.SqliteEngine: `create_db()` (lines 32-39) obtains its engine through the database interface's `engine()`, which for sqlite delegates back here. For a new database that re-enters this method before line 486 stores the key, and so would again see a miss. Since `create_db` is only recorded, this re-entry and its possible non-termination are not modelled.
- `create_db`, `drop_db`, the Postgres `text_to_timestamp_immutable` DDL listeners (lines 311-336), and building ORM classes from mixins are library effects. `sessionmaker`/`async_scoped_session` are reduced to the flags they are given, and the real effect of the PRAGMAs is not modelled.
- Concurrency: lookup-or-create is not claimed to be atomic. No interleavings are modelled. In particular, another coroutine may run at the `await create_db()` (line 484) before the engine is stored (line 486).
- `OrionDBInterface` wiring is not modelled:
  - the settings read, `run_migrations`, `insert` and the delegating `engine`/`session_factory`;
  - the calls that fail as written: the sqlite `run_migrations` signature (lines 223/434), sqlite `session_factory`'s missing `bind` and its argument-less `self.engine()` (lines 273, 489-503);
  - `self.FlowRun`/`self.FlowRunState` on the configuration classes.

  Each configuration method is modelled on explicit arguments instead.
- Configurations.PostgresAttach and Configurations.SqliteAttach: SQL does not fix which row `UPDATE ... FROM` joins or `LIMIT 1` returns when several match. The functions take the first in scan order, while `PostgresOutcome`/`SqliteOutcome` and the agreement lemma allow any matching row.
- Configurations.Caches.PostgresEngine: timeouts (floats in Python) are an opaque `Timeout` value. Loops, engines and session factories are opaque identities.
- The models' `__tablename__` comes from mixins that are not part of this model. The index names carry their table names as literals.
- Schema.DeclaredIndexNamesDistinct: it is not proved that each explicit index name is what the naming convention would generate from its columns.
- The `insert` properties return SQLAlchemy's dialect `insert` constructs, which are foreign objects.

**Runtime accessors**
- RuntimeDeployment.GetId: the flow-run context is modelled as offering an optional `deployment_id` attribute, read as `getattr(ctx, "deployment_id", None)`.
- RuntimeTaskRun.GetAttr and RuntimeDeployment.GetAttr: the error carries the module and the attribute name. The message text, built with `repr` of the name, is not modelled.
- RuntimeDeployment.GetId: the cross-thread API call (`from_sync.call_soon_in_new_thread`) is the abstract `fetch`. It is assumed to return a record; its failures are not modelled. UUIDs are always truthy in Python, so "truthy" is modelled as "present".
