/** The dialect configurations of `src/prefect/orion/database/configurations.py`: engine
    options per dialect, the process-wide engine and session-factory caches, the connection
    set-up of sqlite, and the two shapes of the statement that attaches freshly inserted
    states to freshly inserted flow runs. Engines and session factories are opaque objects. */
module Configurations {
  import opened Common
  import Strings

  /** The event loop `get_event_loop()` returns, by identity. */
  type LoopId = nat

  /** The statement timeout, an opaque stand-in for the number of seconds. */
  type Timeout = int

  datatype Dialect = Postgres | Sqlite

  // ------------------------------------------------------------------------------------------
  // Engine options

  datatype Pool = DefaultPool | SingletonThreadPool

  /** The keyword arguments given to `create_async_engine` besides the URL and `echo`:
      `connect_args` (absent when `None`) and the pool class. */
  datatype EngineOptions = EngineOptions(connectArgs: Option<map<string, Timeout>>, poolClass: Pool)

  /** The Postgres engine passes a timeout as `command_timeout`. */
  function PostgresEngineOptions(timeout: Option<Timeout>): (o: EngineOptions)
    ensures timeout.None? <==> o.connectArgs.None?
    ensures timeout.Some? ==> o.connectArgs == Some(map["command_timeout" := timeout.value])
    ensures o.poolClass == DefaultPool
  {
    EngineOptions(if timeout.Some? then Some(map["command_timeout" := timeout.value]) else None, DefaultPool)
  }

  /** The sqlite engine passes a timeout as `timeout`, and keeps in-memory databases alive
      with a single-connection pool. */
  function SqliteEngineOptions(url: string, timeout: Option<Timeout>): (o: EngineOptions)
    ensures timeout.None? <==> o.connectArgs.None?
    ensures timeout.Some? ==> o.connectArgs == Some(map["timeout" := timeout.value])
    ensures o.poolClass == SingletonThreadPool <==> Strings.Contains(url, ":memory:")
  {
    EngineOptions(if timeout.Some? then Some(map["timeout" := timeout.value]) else None,
                  if Strings.Contains(url, ":memory:") then SingletonThreadPool else DefaultPool)
  }

  /** The dialects agree on everything but the name of the timeout argument, unless the
      sqlite URL names an in-memory database. */
  lemma OptionsDifferOnlyInTimeoutKey(url: string, timeout: Option<Timeout>)
    requires !Strings.Contains(url, ":memory:")
    ensures SqliteEngineOptions(url, timeout).poolClass == PostgresEngineOptions(timeout).poolClass
    ensures timeout.None? ==> SqliteEngineOptions(url, timeout) == PostgresEngineOptions(timeout)
    ensures timeout.Some? ==>
      PostgresEngineOptions(timeout).connectArgs.value["command_timeout"] ==
      SqliteEngineOptions(url, timeout).connectArgs.value["timeout"]
  {
  }

  /** The default sqlite URL of an in-memory database selects the single-connection pool. */
  lemma InMemoryUrlUsesSingletonPool(timeout: Option<Timeout>)
    ensures SqliteEngineOptions("sqlite+aiosqlite:///:memory:", timeout).poolClass == SingletonThreadPool
  {
    var url := "sqlite+aiosqlite:///:memory:";
    assert Strings.OccursAt(url, ":memory:", 20);
  }

  /** The condition under which the sqlite engine provisions the schema before caching the
      engine: an in-memory database, or a database file that does not exist yet. */
  predicate IsNewSqliteDatabase(database: string, fileExists: bool) {
    Strings.Contains(database, ":memory:") || Strings.Contains(database, "mode=memory") || !fileExists
  }

  /** A database file that is missing is always new; an in-memory database, named either way,
      is new even when a file of that name exists; an existing file is new only when its name
      says it is in memory. */
  lemma NewDatabaseCases(database: string, fileExists: bool)
    ensures !fileExists ==> IsNewSqliteDatabase(database, fileExists)
    ensures IsNewSqliteDatabase(":memory:", true)
    ensures IsNewSqliteDatabase("file:orion?" + "mode=memory" + "&cache=shared", true)
    ensures fileExists && IsNewSqliteDatabase(database, fileExists) ==>
              Strings.Contains(database, ":memory:") || Strings.Contains(database, "mode=memory")
  {
    assert Strings.OccursAt(":memory:", ":memory:", 0);
    var head, query := "file:orion?", "mode=memory";
    var shared := head + query + "&cache=shared";
    assert shared[|head|..|head| + |query|] == query;
    assert Strings.OccursAt(shared, query, |head|);
  }

  // ------------------------------------------------------------------------------------------
  // Connection set-up

  datatype ConnAction = Execute(sql: string) | Commit

  /** `setup_sqlite`, run on every new sqlite connection: the PRAGMAs it issues, in order. */
  function SetupSqlite(): (r: seq<ConnAction>)
    ensures |r| == 4 && r[|r| - 1] == Commit
    ensures r[0] == Execute("PRAGMA foreign_keys = ON;") && Execute("PRAGMA busy_timeout = 60000;") in r
    ensures r[1] == Execute("PRAGMA journal_mode = WAL;") && r[2] == Execute("PRAGMA busy_timeout = 60000;")
    ensures forall i :: 0 <= i < |r| - 1 ==> r[i].Execute? && |r[i].sql| >= 7 && r[i].sql[..7] == "PRAGMA "
  {
    [ Execute("PRAGMA foreign_keys = ON;"),
      Execute("PRAGMA journal_mode = WAL;"),
      Execute("PRAGMA busy_timeout = 60000;"),
      Commit ]
  }

  // ------------------------------------------------------------------------------------------
  // Cached resources

  /** An engine built by `create_async_engine`; only its construction arguments are modelled. */
  class Engine {
    const url: string
    const echo: bool
    const options: EngineOptions
    /** The statements run on each new connection (the `engine_connect` listener). */
    const onConnect: seq<ConnAction>

    constructor (url: string, echo: bool, options: EngineOptions, onConnect: seq<ConnAction>)
      ensures this.url == url && this.echo == echo && this.options == options && this.onConnect == onConnect
    {
      this.url, this.echo, this.options, this.onConnect := url, echo, options, onConnect;
    }
  }

  /** `async_scoped_session(sessionmaker(bind, future=True, expire_on_commit=False,
      class_=AsyncSession), scopefunc=current_task)`. */
  class SessionFactory {
    const bind: Engine
    const future: bool
    const expireOnCommit: bool
    /** Sessions are scoped to the current asyncio task. */
    const scopedToCurrentTask: bool

    constructor (bind: Engine)
      ensures this.bind == bind && future && !expireOnCommit && scopedToCurrentTask
    {
      this.bind, future, expireOnCommit, scopedToCurrentTask := bind, true, false, true;
    }
  }

  /** The settings every session factory is created with. */
  predicate IsConfigured(f: SessionFactory) {
    f.future && !f.expireOnCommit && f.scopedToCurrentTask
  }

  datatype EngineKey = EngineKey(loop: LoopId, url: string, echo: bool, timeout: Option<Timeout>)
  datatype SessionKey = SessionKey(loop: LoopId, bind: Engine)

  /** The module-level dicts `ENGINES` and `SESSION_FACTORIES`. */
  class Caches {
    var engines: map<EngineKey, Engine>
    var sessionFactories: map<SessionKey, SessionFactory>
    /** The keys whose engine creation awaited `create_db()` before storing the engine. */
    var schemaCreations: seq<EngineKey>

    /** Every cached resource was built for its key, and no resource is cached under two keys
        (so none is shared between event loops). */
    ghost predicate Valid()
      reads this
    {
      && (forall k :: k in engines ==> engines[k].url == k.url && engines[k].echo == k.echo)
      && (forall k1, k2 :: k1 in engines && k2 in engines && k1 != k2 ==> engines[k1] != engines[k2])
      && (forall k :: k in sessionFactories ==> sessionFactories[k].bind == k.bind && IsConfigured(sessionFactories[k]))
      && (forall k1, k2 :: k1 in sessionFactories && k2 in sessionFactories && k1 != k2 ==>
            sessionFactories[k1] != sessionFactories[k2])
    }

    /** The state at import time: both dicts empty. */
    constructor ()
      ensures Valid() && engines == map[] && sessionFactories == map[] && schemaCreations == []
    {
      engines, sessionFactories, schemaCreations := map[], map[], [];
    }

    /** `AsyncPostgresConfiguration.engine`: look up `(loop, url, echo, timeout)`; on a miss
        create one engine and store it. */
    method PostgresEngine(loop: LoopId, url: string, echo: bool, timeout: Option<Timeout>) returns (e: Engine)
      requires Valid()
      modifies this
      ensures Valid()
      ensures var key := EngineKey(loop, url, echo, timeout);
        && key in engines && engines[key] == e
        && (key in old(engines) ==> e == old(engines)[key] && engines == old(engines))
        && (key !in old(engines) ==>
              && fresh(e) && engines == old(engines)[key := e]
              && e.options == PostgresEngineOptions(timeout) && e.onConnect == [])
      ensures sessionFactories == old(sessionFactories) && schemaCreations == old(schemaCreations)
    {
      var key := EngineKey(loop, url, echo, timeout);
      if key !in engines {
        var engine := new Engine(url, echo, PostgresEngineOptions(timeout), []);
        engines := engines[key := engine];
      }
      e := engines[key];
    }

    /** `AioSqliteConfiguration.engine`. `database` is the database part of the URL and
        `fileExists` what `os.path.exists` says of it. On a miss the new engine runs
        `setup_sqlite` on every connection, and `create_db()` is awaited before the engine
        is stored when the database is new. */
    method SqliteEngine(loop: LoopId, url: string, echo: bool, timeout: Option<Timeout>,
                        database: string, fileExists: bool) returns (e: Engine)
      requires Valid()
      modifies this
      ensures Valid()
      ensures var key := EngineKey(loop, url, echo, timeout);
        && key in engines && engines[key] == e
        && (key in old(engines) ==>
              e == old(engines)[key] && engines == old(engines) && schemaCreations == old(schemaCreations))
        && (key !in old(engines) ==>
              && fresh(e) && engines == old(engines)[key := e]
              && e.options == SqliteEngineOptions(url, timeout) && e.onConnect == SetupSqlite()
              && schemaCreations == old(schemaCreations) +
                   (if IsNewSqliteDatabase(database, fileExists) then [key] else []))
      ensures sessionFactories == old(sessionFactories)
    {
      var key := EngineKey(loop, url, echo, timeout);
      if key !in engines {
        var engine := new Engine(url, echo, SqliteEngineOptions(url, timeout), SetupSqlite());
        if IsNewSqliteDatabase(database, fileExists) {
          schemaCreations := schemaCreations + [key];
        }
        engines := engines[key := engine];
      }
      e := engines[key];
    }

    /** `AsyncPostgresConfiguration.session_factory(bind)`, which is also the second half of
        the sqlite one: look up `(loop, bind)`; on a miss create one factory and store it. */
    method SessionFactoryFor(loop: LoopId, bind: Engine) returns (f: SessionFactory)
      requires Valid()
      modifies this
      ensures Valid()
      ensures var key := SessionKey(loop, bind);
        && key in sessionFactories && sessionFactories[key] == f
        && f.bind == bind && IsConfigured(f)
        && (key in old(sessionFactories) ==> f == old(sessionFactories)[key] && sessionFactories == old(sessionFactories))
        && (key !in old(sessionFactories) ==> fresh(f) && sessionFactories == old(sessionFactories)[key := f])
      ensures engines == old(engines) && schemaCreations == old(schemaCreations)
    {
      var key := SessionKey(loop, bind);
      if key !in sessionFactories {
        var factory := new SessionFactory(bind);
        sessionFactories := sessionFactories[key := factory];
      }
      f := sessionFactories[key];
      assert f.bind == key.bind && IsConfigured(f);
    }

    /** `AioSqliteConfiguration.session_factory`, with the engine arguments it needs made
        explicit: obtain the cached engine as the bind, then the cached factory for it. */
    method SqliteSessionFactory(loop: LoopId, url: string, echo: bool, timeout: Option<Timeout>,
                                database: string, fileExists: bool) returns (f: SessionFactory)
      requires Valid()
      modifies this
      ensures Valid()
      ensures var key := EngineKey(loop, url, echo, timeout);
        && key in engines && f.bind == engines[key] && IsConfigured(f)
        && SessionKey(loop, f.bind) in sessionFactories && sessionFactories[SessionKey(loop, f.bind)] == f
        && (key in old(engines) ==> engines == old(engines))
        && (key in old(engines) ==> f.bind == old(engines)[key] && schemaCreations == old(schemaCreations))
        && (key !in old(engines) ==>
              && fresh(f.bind) && engines == old(engines)[key := f.bind]
              && schemaCreations == old(schemaCreations) +
                   (if IsNewSqliteDatabase(database, fileExists) then [key] else []))
        && (SessionKey(loop, f.bind) in old(sessionFactories) ==>
              f == old(sessionFactories)[SessionKey(loop, f.bind)] && sessionFactories == old(sessionFactories))
        && (SessionKey(loop, f.bind) !in old(sessionFactories) ==>
              fresh(f) && sessionFactories == old(sessionFactories)[SessionKey(loop, f.bind) := f])
    {
      var bind := SqliteEngine(loop, url, echo, timeout, database, fileExists);
      f := SessionFactoryFor(loop, bind);
    }
  }

  /** Asking twice with the same arguments yields the very same engine, and the second call
      changes nothing. */
  method SameKeySameEngine(c: Caches, loop: LoopId, url: string, echo: bool, timeout: Option<Timeout>)
      returns (e1: Engine, e2: Engine)
    requires c.Valid()
    modifies c
    ensures e1 == e2
    ensures c.engines == old(c.engines)[EngineKey(loop, url, echo, timeout) := e1]
  {
    e1 := c.PostgresEngine(loop, url, echo, timeout);
    e2 := c.PostgresEngine(loop, url, echo, timeout);
  }

  /** Two event loops never share an engine, even for the same connection arguments. */
  method EnginesArePerLoop(c: Caches, loop1: LoopId, loop2: LoopId, url: string, echo: bool, timeout: Option<Timeout>)
      returns (e1: Engine, e2: Engine)
    requires c.Valid() && loop1 != loop2
    modifies c
    ensures e1 != e2
  {
    e1 := c.PostgresEngine(loop1, url, echo, timeout);
    e2 := c.PostgresEngine(loop2, url, echo, timeout);
    assert c.engines[EngineKey(loop1, url, echo, timeout)] == e1;
  }

  // ------------------------------------------------------------------------------------------
  // Attaching inserted states to inserted flow runs

  type Id = nat

  /** A row of `flow_run_state`, in the order the database scans them. */
  datatype StateRow = StateRow(id: Id, flowRunId: Id)

  /** One of `insert_flow_run_states`; only its `"id"` is read. */
  datatype InsertedState = InsertedState(id: Id)

  /** `flow_run`: each run's id and its `state_id` (`None` is NULL). */
  type RunTable = map<Id, Option<Id>>

  /** `[r["id"] for r in insert_flow_run_states]`, as the set `in_` tests against. */
  function StateIds(inserted: seq<InsertedState>): (r: set<Id>)
    ensures forall i :: 0 <= i < |inserted| ==> inserted[i].id in r
    ensures forall id :: id in r ==> exists i :: 0 <= i < |inserted| && inserted[i].id == id
  {
    set s | s in inserted :: s.id
  }

  /** The shared filter: the row belongs to the run and is one of the inserted states. */
  predicate RowMatches(row: StateRow, runId: Id, stateIds: set<Id>) {
    row.flowRunId == runId && row.id in stateIds
  }

  predicate HasMatch(states: seq<StateRow>, stateIds: set<Id>, runId: Id) {
    exists i :: 0 <= i < |states| && RowMatches(states[i], runId, stateIds)
  }

  predicate IsMatchingState(states: seq<StateRow>, stateIds: set<Id>, runId: Id, stateId: Id) {
    exists i :: 0 <= i < |states| && states[i].id == stateId && RowMatches(states[i], runId, stateIds)
  }

  /** Exactly one state id matches the run. */
  ghost predicate UniqueMatch(states: seq<StateRow>, stateIds: set<Id>, runId: Id) {
    && HasMatch(states, stateIds, runId)
    && forall s1, s2 :: IsMatchingState(states, stateIds, runId, s1) && IsMatchingState(states, stateIds, runId, s2) ==> s1 == s2
  }

  /** The first matching row in scan order: the row `LIMIT 1` returns, and the join row
      `UPDATE ... FROM` uses when several match (SQL leaves both choices to the server). */
  function FirstMatch(states: seq<StateRow>, stateIds: set<Id>, runId: Id): (r: Option<Id>)
    ensures r.None? <==> !HasMatch(states, stateIds, runId)
    ensures r.Some? ==> IsMatchingState(states, stateIds, runId, r.value)
  {
    if states == [] then None
    else if RowMatches(states[0], runId, stateIds) then Some(states[0].id)
    else
      var rest := FirstMatch(states[1..], stateIds, runId);
      assert forall i :: 1 <= i < |states| ==> states[i] == states[1..][i - 1];
      if rest.Some? then
        assert IsMatchingState(states[1..], stateIds, runId, rest.value);
        rest
      else rest
  }

  /** The results the Postgres statement may produce: listed runs with a matching inserted
      state get one of those states, every other run keeps its `state_id`. */
  predicate PostgresOutcome(runs: RunTable, states: seq<StateRow>, runIds: seq<Id>, stateIds: set<Id>, r: RunTable) {
    && r.Keys == runs.Keys
    && forall id :: id in runs ==>
         if id in runIds && HasMatch(states, stateIds, id)
         then r[id].Some? && IsMatchingState(states, stateIds, id, r[id].value)
         else r[id] == runs[id]
  }

  /** The results the sqlite statement may produce: every listed run gets its scalar subquery,
      a matching inserted state or NULL; unlisted runs keep their `state_id`. */
  predicate SqliteOutcome(runs: RunTable, states: seq<StateRow>, runIds: seq<Id>, stateIds: set<Id>, r: RunTable) {
    && r.Keys == runs.Keys
    && forall id :: id in runs ==>
         if id !in runIds then r[id] == runs[id]
         else if HasMatch(states, stateIds, id) then r[id].Some? && IsMatchingState(states, stateIds, id, r[id].value)
         else r[id] == None
  }

  /** `UPDATE flow_run SET state_id = flow_run_state.id FROM flow_run_state WHERE flow_run.id
      IN (runIds) AND flow_run_state.flow_run_id = flow_run.id AND flow_run_state.id IN
      (inserted ids)`, applied to the tables. */
  function PostgresAttach(runs: RunTable, states: seq<StateRow>, runIds: seq<Id>, inserted: seq<InsertedState>): (r: RunTable)
    ensures PostgresOutcome(runs, states, runIds, StateIds(inserted), r)
  {
    var stateIds := StateIds(inserted);
    map id | id in runs ::
      if id in runIds && FirstMatch(states, stateIds, id).Some? then FirstMatch(states, stateIds, id) else runs[id]
  }

  /** `UPDATE flow_run SET state_id = (SELECT flow_run_state.id FROM flow_run_state WHERE
      flow_run_state.flow_run_id = flow_run.id AND flow_run_state.id IN (inserted ids) LIMIT 1)
      WHERE flow_run.id IN (runIds)`, applied to the tables. */
  function SqliteAttach(runs: RunTable, states: seq<StateRow>, runIds: seq<Id>, inserted: seq<InsertedState>): (r: RunTable)
    ensures SqliteOutcome(runs, states, runIds, StateIds(inserted), r)
  {
    var stateIds := StateIds(inserted);
    map id | id in runs :: if id in runIds then FirstMatch(states, stateIds, id) else runs[id]
  }

  /** `set_state_id_on_inserted_flow_runs_statement` of the configured dialect. Either way only
      listed runs change, and a run that changes gets a matching inserted state or NULL. */
  function AttachStatement(dialect: Dialect, runs: RunTable, states: seq<StateRow>, runIds: seq<Id>,
                           inserted: seq<InsertedState>): (r: RunTable)
    ensures r.Keys == runs.Keys
    ensures forall id :: id in runs && id !in runIds ==> r[id] == runs[id]
    ensures forall id :: id in runs && r[id] != runs[id] ==>
              r[id] == None || IsMatchingState(states, StateIds(inserted), id, r[id].value)
    ensures forall id :: id in runs && id in runIds && HasMatch(states, StateIds(inserted), id) ==>
              r[id].Some? && IsMatchingState(states, StateIds(inserted), id, r[id].value)
  {
    match dialect
    case Postgres => PostgresAttach(runs, states, runIds, inserted)
    case Sqlite => SqliteAttach(runs, states, runIds, inserted)
  }

  /** When every listed run has exactly one matching inserted state, the two statements are
      fully determined and agree, whichever rows the servers pick. */
  lemma {:induction false} UniqueMatchOutcomesAgree(runs: RunTable, states: seq<StateRow>, runIds: seq<Id>,
                                                    stateIds: set<Id>, pg: RunTable, lite: RunTable)
    requires forall id :: id in runs && id in runIds ==> UniqueMatch(states, stateIds, id)
    requires PostgresOutcome(runs, states, runIds, stateIds, pg)
    requires SqliteOutcome(runs, states, runIds, stateIds, lite)
    ensures pg == lite
  {
    forall id | id in runs
      ensures pg[id] == lite[id]
    {
      if id in runIds {
        assert UniqueMatch(states, stateIds, id);
        assert IsMatchingState(states, stateIds, id, pg[id].value);
        assert IsMatchingState(states, stateIds, id, lite[id].value);
      }
    }
  }

  /** With the same scan order the two statements agree whenever every listed run has a
      matching inserted state. */
  lemma MatchedRunsAttachAlike(runs: RunTable, states: seq<StateRow>, runIds: seq<Id>, inserted: seq<InsertedState>)
    requires forall id :: id in runs && id in runIds ==> HasMatch(states, StateIds(inserted), id)
    ensures PostgresAttach(runs, states, runIds, inserted) == SqliteAttach(runs, states, runIds, inserted)
  {
  }

  /** Where they differ: a listed run without a matching inserted state keeps its state under
      Postgres and is set to NULL under sqlite. */
  lemma UnmatchedRunDiffers(runs: RunTable, states: seq<StateRow>, runIds: seq<Id>, stateIds: set<Id>,
                            pg: RunTable, lite: RunTable, id: Id)
    requires id in runs && id in runIds && !HasMatch(states, stateIds, id)
    requires PostgresOutcome(runs, states, runIds, stateIds, pg)
    requires SqliteOutcome(runs, states, runIds, stateIds, lite)
    ensures pg[id] == runs[id] && lite[id] == None
  {
  }

  /** A concrete instance: run 1 is listed but its inserted state belongs to run 2. */
  lemma UnmatchedRunExample()
    ensures PostgresAttach(map[1 := Some(7)], [StateRow(8, 2)], [1], [InsertedState(8)]) == map[1 := Some(7)]
    ensures SqliteAttach(map[1 := Some(7)], [StateRow(8, 2)], [1], [InsertedState(8)]) == map[1 := None]
  {
    var states := [StateRow(8, 2)];
    var stateIds := StateIds([InsertedState(8)]);
    assert !RowMatches(states[0], 1, stateIds);
    assert !HasMatch(states, stateIds, 1);
  }
}
