/**
  The data layer of src/lib/db.ts as a state machine over its module
  globals (`db`, `isInitialized`, `usingMockDB`, `channel`) and the parts of
  the page it touches (the snapshot slot, and one ordered log of the slot
  writes, broadcast messages and `db_updated` events it causes). Every exported operation is a
  function from a state to a new state and a result; the class in module Db
  runs the same operations step by step and is proved to agree.

  The primary engine (PGlite) is an oracle: on each construction attempt it
  is either unavailable or answers every statement with a result that may
  depend on all the statements it was given before.
 */
module DbSpec {
  import opened Records
  import opened Browser
  import opened Mock
  import opened Sql

  /** The primary engine's answer to a statement, given the statements it already ran. */
  type Responder = (seq<Statement>, Statement) -> Result<QueryResult>

  /** What `new PGlite()` yields on one attempt: a constructor that throws, or a working engine. */
  datatype Availability = Unavailable | Available(respond: Responder)

  /** Everything the data layer reads but never writes. */
  datatype Env = Env(pglite: nat -> Availability, broadcastSupported: bool, quotaExceeded: bool, now: string)

  /** The global `db`: null, a primary engine (with the statements it has run), or a MockDB (with its store). */
  datatype Engine = NoEngine | Primary(attempt: nat, log: seq<Statement>) | Fallback(patients: seq<Row>)

  datatype State = State(
    db: Engine, isInitialized: bool, usingMockDB: bool, channel: bool,
    constructions: nat, slot: Slot, effects: seq<Effect>)

  /** A new state and what the `async` call resolves to or rejects with. */
  datatype Outcome<T> = Outcome(state: State, result: Result<T>)

  /** The page as loaded: nothing initialised, whatever the snapshot slot holds. */
  function Start(slot: Slot): State {
    State(NoEngine, false, false, false, 0, slot, [])
  }

  const SmokeTest := Statement(SmokeTestSql, [])
  const Schema := Statement(SchemaSql, [])
  const Mirror := Statement(MirrorSql, [])
  const ChannelUnsupported := "BroadcastChannel is not defined"
  const EngineUnavailable := "PGlite is not available"

  /**
    The state invariant between operations: `isInitialized` exactly when an
    engine is held, an initialised layer has a channel, `usingMockDB` names
    the engine held, and a primary engine came from an earlier, working
    construction attempt.
   */
  predicate Consistent(st: State, env: Env) {
    && (st.isInitialized <==> st.db != NoEngine)
    && (st.isInitialized ==> st.channel)
    && (st.db.Fallback? ==> st.usingMockDB)
    && (st.db.Primary? ==> !st.usingMockDB && st.db.attempt < st.constructions
                           && env.pglite(st.db.attempt).Available?)
  }

  function Respond(env: Env, attempt: nat, log: seq<Statement>, s: Statement): Result<QueryResult> {
    match env.pglite(attempt)
    case Available(respond) => respond(log, s)
    case Unavailable => Failure(EngineUnavailable)
  }

  /**
    `database.query(s)` on the engine held. Only the engine and the snapshot
    slot (with its write in the effect log) can change; the primary engine
    never touches the slot and the MockDB never fails.
   */
  function Run(st: State, s: Statement, env: Env): (o: Outcome<QueryResult>)
    requires st.db != NoEngine
    ensures o.state == st.(db := o.state.db, slot := o.state.slot, effects := o.state.effects)
    ensures st.db.Primary? ==>
      o.state.db == Primary(st.db.attempt, st.db.log + [s]) && o.state.slot == st.slot && o.state.effects == st.effects
    ensures st.db.Fallback? ==> o.state.db.Fallback? && o.result.Success?
  {
    match st.db
    case Primary(attempt, log) =>
      Outcome(st.(db := Primary(attempt, log + [s])), Respond(env, attempt, log, s))
    case Fallback(patients) =>
      var a := Step(patients, s.text, s.params, env.now);
      var after := st.(db := Fallback(a.store));
      if Classify(s.text) == Insert && !env.quotaExceeded then
        Outcome(after.(slot := Stored(JsonifyAll(a.store)), effects := st.effects + [Wrote(JsonifyAll(a.store))]), Success(a.result))
      else Outcome(after, Success(a.result))
  }

  /**
    The first step of initialisation: construct the primary engine and run
    its smoke test; on either failure fall back to a MockDB hydrated from the
    snapshot slot.
   */
  function SelectEngine(st: State, env: Env): State {
    var attempt := st.constructions;
    var next := st.(constructions := attempt + 1);
    var fallback := next.(db := Fallback(Hydrate(st.slot)), usingMockDB := true);
    match env.pglite(attempt)
    case Available(respond) =>
      if respond([], SmokeTest).Success? then next.(db := Primary(attempt, [SmokeTest]), usingMockDB := false)
      else fallback
    case Unavailable => fallback
  }

  /** The insert the replay issues for one stored record, optional fields defaulted to `''`. */
  function ReplayRow(p: Row): Statement {
    Statement(ReplaySql, [
      Field(p, "first_name"), Field(p, "last_name"), Field(p, "date_of_birth"), Field(p, "gender"),
      OrEmpty(Field(p, "email")), OrEmpty(Field(p, "phone")),
      OrEmpty(Field(p, "address")), OrEmpty(Field(p, "medical_history"))])
  }

  function ReplayStatements(rows: seq<Row>): (ss: seq<Statement>)
    ensures |ss| == |rows| && forall i :: 0 <= i < |rows| ==> ss[i] == ReplayRow(rows[i])
  {
    seq(|rows|, i requires 0 <= i < |rows| => ReplayRow(rows[i]))
  }

  /**
    The replay loop: insert the records one by one into the primary engine;
    the first failure ends the loop (the error is caught by the replay's own
    handler). Nothing but the engine's log changes, and what it ran is the
    replay statements of a prefix of the records.
   */
  function ReplayRows(st: State, rows: seq<Row>, env: Env): (r: State)
    requires st.db.Primary?
    ensures r == st.(db := r.db)
    ensures r.db.Primary? && r.db.attempt == st.db.attempt
    ensures |st.db.log| <= |r.db.log| <= |st.db.log| + |rows|
    decreases |rows|
  {
    if rows == [] then st
    else
      var o := Run(st, ReplayRow(rows[0]), env);
      if o.result.Failure? then o.state else ReplayRows(o.state, rows[1..], env)
  }

  /** What the replay adds to the engine's log is the insert statements of a prefix of the records, in order. */
  lemma {:induction false} ReplayedStatements(st: State, rows: seq<Row>, env: Env)
    requires st.db.Primary?
    ensures var r := ReplayRows(st, rows, env);
      r.db.log == st.db.log + ReplayStatements(rows[..|r.db.log| - |st.db.log|])
    decreases |rows|
  {
    if rows != [] {
      var o := Run(st, ReplayRow(rows[0]), env);
      if o.result.Failure? {
        ReplayStatementsCons(st.db.log, rows, 0);
      } else {
        ReplayedStatements(o.state, rows[1..], env);
        var r := ReplayRows(o.state, rows[1..], env);
        ReplayStatementsCons(st.db.log, rows, |r.db.log| - |o.state.db.log|);
      }
    }
  }

  /** Replaying a non-empty prefix: the first record's statement, then the rest's. */
  lemma ReplayStatementsCons(log: seq<Statement>, rows: seq<Row>, n: nat)
    requires n < |rows|
    ensures log + [ReplayRow(rows[0])] + ReplayStatements(rows[1..][..n]) == log + ReplayStatements(rows[..n + 1])
  {
    assert rows[..n + 1] == [rows[0]] + rows[1..][..n];
    assert ReplayStatements(rows[..n + 1]) == [ReplayRow(rows[0])] + ReplayStatements(rows[1..][..n]);
  }

  /** Replay on the primary engine: a missing or unparsable snapshot replays nothing. */
  function ReplaySnapshot(st: State, env: Env): (r: State)
    requires st.db.Primary?
  {
    if st.slot.Stored? then ReplayRows(st, st.slot.rows, env) else st
  }

  /**
    `initializeDB()`: return the engine held if initialised; otherwise select
    an engine, open the channel, run the schema statement, mark the layer
    initialised, replay the snapshot on the primary engine only, and return
    the engine. A failure after the engine was selected clears `db` and
    `isInitialized` and rejects with the same error.
   */
  function Initialize(st: State, env: Env): (o: Outcome<Engine>)
    ensures o.result.Success? ==> o.state.isInitialized && o.state.db != NoEngine && o.result.value == o.state.db
    ensures o.result.Failure? ==> !o.state.isInitialized && o.state.db == NoEngine
  {
    if st.isInitialized && st.db != NoEngine then Outcome(st, Success(st.db))
    else
      var selected := SelectEngine(st, env);
      if !env.broadcastSupported then
        Outcome(selected.(isInitialized := false, db := NoEngine), Failure(ChannelUnsupported))
      else
        var withChannel := selected.(channel := true);
        var schema := Run(withChannel, Schema, env);
        if schema.result.Failure? then
          Outcome(schema.state.(isInitialized := false, db := NoEngine), Failure(schema.result.error))
        else
          var ready := schema.state.(isInitialized := true);
          var replayed := if ready.usingMockDB then ready else ReplaySnapshot(ready, env);
          Outcome(replayed, Success(replayed.db))
  }

  /** `getDB()`: initialise unless an initialised engine is held. */
  function GetDB(st: State, env: Env): Outcome<Engine> {
    if !st.isInitialized || st.db == NoEngine then Initialize(st, env) else Outcome(st, Success(st.db))
  }

  /**
    The part of `executeQuery` after the engine is obtained: run the
    statement; if it succeeded and is mutating, publish the change.
   */
  function Wrap(st: State, s: Statement, env: Env): Outcome<QueryResult>
    requires st.db != NoEngine
  {
    var q := Run(st, s, env);
    if q.result.Failure? || !IsMutating(s.text) then q else Publish(q.state, q.result, env)
  }

  /**
    What follows a successful mutating statement: re-select the whole
    table, overwrite the snapshot with the rows, post the change message if
    a channel exists, and dispatch a `current_tab` event, in that order. A
    failure at any step rejects and skips the steps after it; otherwise the
    statement's own result is returned.
   */
  function Publish(st: State, result: Result<QueryResult>, env: Env): Outcome<QueryResult>
    requires st.db != NoEngine
  {
    var m := Run(st, Mirror, env);
    if m.result.Failure? then Outcome(m.state, Failure(m.result.error))
    else Save(m.state, m.result.value.rows, result, env)
  }

  /** The snapshot write and the two notifications, given the re-selected rows. */
  function Save(st: State, rows: seq<Row>, result: Result<QueryResult>, env: Env): Outcome<QueryResult> {
    if env.quotaExceeded then Outcome(st, Failure(QuotaError))
    else
      var saved := st.(slot := Stored(JsonifyAll(rows)), effects := st.effects + [Wrote(JsonifyAll(rows))]);
      var told := if saved.channel then saved.(effects := saved.effects + [Posted(ChangeMessage)]) else saved;
      Outcome(told.(effects := told.effects + [Dispatched(DbUpdated(CurrentTab, PatientsTable))]), result)
  }

  /** `executeQuery(text, params)`. */
  function ExecuteQuery(st: State, s: Statement, env: Env): Outcome<QueryResult> {
    var init := GetDB(st, env);
    if init.result.Failure? then Outcome(init.state, Failure(init.result.error))
    else Wrap(init.state, s, env)
  }

  /** The argument of `addPatient`: four required strings and four optional ones. */
  datatype PatientInput = PatientInput(
    firstName: string, lastName: string, dateOfBirth: string, gender: string,
    email: Option<string>, phone: Option<string>, address: Option<string>, medicalHistory: Option<string>)

  /** An optional string property as JavaScript reads it. */
  function Prop(o: Option<string>): Value {
    if o.Some? then Str(o.value) else Undefined
  }

  /** The eight parameters `addPatient` passes, optional fields defaulted with `|| ''`. */
  function PatientParams(p: PatientInput): seq<Value> {
    [Str(p.firstName), Str(p.lastName), Str(p.dateOfBirth), Str(p.gender),
     OrEmpty(Prop(p.email)), OrEmpty(Prop(p.phone)), OrEmpty(Prop(p.address)), OrEmpty(Prop(p.medicalHistory))]
  }

  /** An optional string with absence read as `''`. */
  function Text(o: Option<string>): string {
    if o.Some? then o.value else ""
  }

  /** `addPatient(input)`. */
  function AddPatient(st: State, p: PatientInput, env: Env): Outcome<QueryResult> {
    ExecuteQuery(st, Statement(InsertSql, PatientParams(p)), env)
  }

  /** `getAllPatients()`: the rows of the list statement, or its error. */
  function GetAllPatients(st: State, env: Env): Outcome<seq<Row>> {
    var o := ExecuteQuery(st, Statement(ListSql, []), env);
    match o.result
    case Success(r) => Outcome(o.state, Success(r.rows))
    case Failure(e) => Outcome(o.state, Failure(e))
  }

  /**
    The channel's `onmessage` handler: a `db_change` message becomes an
    `other_tab` event. Before initialisation has opened the channel there is
    no handler, so nothing happens.
   */
  function OnChannelMessage(st: State, m: Message): State {
    if st.channel && m.kind == ChangeKind then st.(effects := st.effects + [Dispatched(DbUpdated(OtherTab, m.table))])
    else st
  }
}
