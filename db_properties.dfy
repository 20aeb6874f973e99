/**
  What src/lib/db.ts promises about its lifecycle and its query wrapper,
  stated over the state machine of module DbSpec.
 */
module DbProperties {
  import opened Records
  import opened Browser
  import opened Mock
  import opened Sql
  import opened DbSpec

  predicate Ready(st: State) {
    st.isInitialized && st.db != NoEngine
  }

  /** The page state before any call satisfies the invariant. */
  lemma StartIsConsistent(slot: Slot, env: Env)
    ensures Consistent(Start(slot), env)
  {
  }

  /** After a successful initialisation, initialising again changes nothing and returns the same engine. */
  lemma InitializeTwice(st: State, env: Env)
    requires Initialize(st, env).result.Success?
    ensures var o := Initialize(st, env);
      Initialize(o.state, env) == Outcome(o.state, Success(o.state.db))
  {
  }

  /** On any initialised page, initialising returns the held engine and changes nothing. */
  lemma InitializeWhenReady(st: State, env: Env)
    requires Ready(st)
    ensures Initialize(st, env) == Outcome(st, Success(st.db))
  {
  }

  /** getDB and initializeDB agree in every state: their guards are the same test. */
  lemma GetDBIsInitialize(st: State, env: Env)
    ensures GetDB(st, env) == Initialize(st, env)
  {
  }

  /**
    When the primary engine cannot be built or fails its smoke test, a
    channel-capable page falls back to a MockDB hydrated from the snapshot:
    the schema statement is a no-op there, so initialisation succeeds, sets
    `usingMockDB`, replays nothing and touches neither the slot nor the effect log.
   */
  lemma InitializeFallsBack(st: State, env: Env)
    requires !Ready(st) && env.broadcastSupported
    requires !(env.pglite(st.constructions).Available? && env.pglite(st.constructions).respond([], SmokeTest).Success?)
    ensures var o := Initialize(st, env);
      && o.result == Success(Fallback(Hydrate(st.slot)))
      && o.state == st.(db := Fallback(Hydrate(st.slot)), isInitialized := true, usingMockDB := true,
                        channel := true, constructions := st.constructions + 1)
  {
    var selected := SelectEngine(st, env);
    SchemaIsCreateTable();
    OtherStatementsChangeNothing(Hydrate(st.slot), SchemaSql, [], env.now);
  }

  /**
    On the primary engine, initialisation has run the smoke test, the schema
    statement and then the replay inserts of a prefix of the stored records;
    `usingMockDB` is false and nothing else of the page changed.
   */
  lemma InitializeOnPrimary(st: State, env: Env)
    requires !Ready(st) && env.broadcastSupported
    requires env.pglite(st.constructions).Available? && env.pglite(st.constructions).respond([], SmokeTest).Success?
    requires env.pglite(st.constructions).respond([SmokeTest], Schema).Success?
    ensures var o := Initialize(st, env);
      var saved := Hydrate(st.slot);
      && o.result.Success? && o.state.db.Primary? && o.state.db.attempt == st.constructions
      && !o.state.usingMockDB && o.state.isInitialized && o.state.channel
      && o.state == st.(db := o.state.db, isInitialized := true, usingMockDB := false,
                        channel := true, constructions := st.constructions + 1)
      && 2 <= |o.state.db.log| <= 2 + |saved|
      && o.state.db.log == [SmokeTest, Schema] + ReplayStatements(saved[..|o.state.db.log| - 2])
  {
    var selected := SelectEngine(st, env);
    assert selected == st.(db := Primary(st.constructions, [SmokeTest]), usingMockDB := false,
                           constructions := st.constructions + 1);
    var schema := Run(selected.(channel := true), Schema, env);
    var ready := schema.state.(isInitialized := true);
    if ready.slot.Stored? {
      ReplayedStatements(ready, ready.slot.rows, env);
    }
  }

  /**
    Initialisation rejects exactly when the browser lacks BroadcastChannel or
    the primary engine was selected and rejects the schema statement; a
    rejection leaves `db` null and `isInitialized` false, and writes no
    snapshot, message or event.
   */
  lemma InitializeFailsExactly(st: State, env: Env)
    requires !Ready(st)
    ensures var o := Initialize(st, env);
      && (o.result.Failure? <==>
           !env.broadcastSupported
           || (SelectEngine(st, env).db.Primary? && Respond(env, st.constructions, [SmokeTest], Schema).Failure?))
      && (o.result.Failure? ==> o.state.db == NoEngine && !o.state.isInitialized)
      && o.state.slot == st.slot && o.state.effects == st.effects
  {
    var selected := SelectEngine(st, env);
    if env.broadcastSupported {
      var schema := Run(selected.(channel := true), Schema, env);
      if selected.db.Fallback? {
        SchemaIsCreateTable();
        OtherStatementsChangeNothing(Hydrate(st.slot), SchemaSql, [], env.now);
      }
      var ready := schema.state.(isInitialized := true);
      if !ready.usingMockDB && ready.slot.Stored? {
        var r := ReplayRows(ready, ready.slot.rows, env);
      }
    }
  }

  /**
    The replay stops at the first failing record: every record before the
    last one it issued succeeded, and if it issued fewer than all of them,
    the last one issued failed.
   */
  lemma {:induction false} ReplayStopsAtFirstFailure(st: State, rows: seq<Row>, env: Env)
    requires st.db.Primary?
    ensures var r := ReplayRows(st, rows, env);
      var n := |r.db.log| - |st.db.log|;
      && (forall i :: 0 <= i < n - 1 ==> ReplayedOk(env, st, r, rows, i))
      && (n < |rows| ==> 0 < n && !ReplayedOk(env, st, r, rows, n - 1))
    decreases |rows|
  {
    if rows != [] {
      var o := Run(st, ReplayRow(rows[0]), env);
      var r := ReplayRows(st, rows, env);
      var n := |r.db.log| - |st.db.log|;
      ReplayedStatements(st, rows, env);
      assert r.db.log[..|st.db.log|] == st.db.log;
      if o.result.Success? {
        var tail := rows[1..];
        assert r == ReplayRows(o.state, tail, env);
        ReplayStopsAtFirstFailure(o.state, tail, env);
        forall i | 0 <= i < n - 1 ensures ReplayedOk(env, st, r, rows, i) {
          if i > 0 {
            ShiftReplayed(env, st, o.state, r, rows, i);
          }
        }
        if n < |rows| {
          ShiftReplayed(env, st, o.state, r, rows, n - 1);
        }
      }
    }
  }

  /** The record at index `i` was accepted by the engine, given what ran before it in `r`. */
  predicate ReplayedOk(env: Env, st: State, r: State, rows: seq<Row>, i: nat)
    requires st.db.Primary? && r.db.Primary? && |st.db.log| + i <= |r.db.log| && i < |rows|
  {
    Respond(env, st.db.attempt, r.db.log[..|st.db.log| + i], ReplayRow(rows[i])).Success?
  }

  lemma ShiftReplayed(env: Env, st: State, mid: State, r: State, rows: seq<Row>, i: nat)
    requires st.db.Primary? && mid.db.Primary? && r.db.Primary?
    requires mid.db.attempt == st.db.attempt && |mid.db.log| == |st.db.log| + 1
    requires 0 < i < |rows| && |st.db.log| + i <= |r.db.log|
    ensures ReplayedOk(env, st, r, rows, i) == ReplayedOk(env, mid, r, rows[1..], i - 1)
  {
    assert rows[1..][i - 1] == rows[i];
  }

  /** Initialisation, every statement, and every channel message keep the invariant. */
  lemma InitializeKeepsConsistent(st: State, env: Env)
    requires Consistent(st, env)
    ensures Consistent(Initialize(st, env).state, env)
  {
    if !Ready(st) {
      var selected := SelectEngine(st, env);
      if env.broadcastSupported {
        var schema := Run(selected.(channel := true), Schema, env);
        var ready := schema.state.(isInitialized := true);
        if !ready.usingMockDB && ready.slot.Stored? {
          var r := ReplayRows(ready, ready.slot.rows, env);
        }
      }
    }
  }

  lemma ExecuteKeepsConsistent(st: State, s: Statement, env: Env)
    requires Consistent(st, env)
    ensures Consistent(ExecuteQuery(st, s, env).state, env)
  {
    InitializeKeepsConsistent(st, env);
  }

  lemma ChannelMessageKeepsConsistent(st: State, m: Message, env: Env)
    requires Consistent(st, env)
    ensures Consistent(OnChannelMessage(st, m), env)
  {
  }

  /**
    A statement that is not mutating writes no snapshot, posts no message and
    dispatches no event, on either engine, including when `executeQuery`
    must first initialise the page.
   */
  lemma NonMutatingHasNoEffects(st: State, s: Statement, env: Env)
    requires Consistent(st, env) && !IsMutating(s.text)
    ensures var o := ExecuteQuery(st, s, env);
      o.state.slot == st.slot && o.state.effects == st.effects
  {
    if !Ready(st) {
      InitializeFailsExactly(st, env);
    }
    if Classify(s.text) == Insert {
      MockInsertIsMutating(s.text);
    }
  }

  /**
    A mutating statement on the MockDB with storage available: the result is
    the MockDB's, the snapshot now holds the whole store after the
    statement, and the page saw, in order: the MockDB's own snapshot write
    (inserts only), the layer's snapshot write, the change message and one
    `current_tab` event.
   */
  lemma MockMutatingEffects(st: State, s: Statement, env: Env)
    requires Consistent(st, env) && Ready(st) && st.db.Fallback? && IsMutating(s.text) && !env.quotaExceeded
    ensures var o := ExecuteQuery(st, s, env);
      var a := Step(st.db.patients, s.text, s.params, env.now);
      && o.result == Success(a.result)
      && o.state.db == Fallback(a.store)
      && o.state.slot == Stored(JsonifyAll(a.store))
      && o.state.effects == st.effects
           + (if Classify(s.text) == Insert then [Wrote(JsonifyAll(a.store))] else [])
           + [Wrote(JsonifyAll(a.store)), Posted(ChangeMessage), Dispatched(DbUpdated(CurrentTab, PatientsTable))]
  {
    var a := Step(st.db.patients, s.text, s.params, env.now);
    MirrorIsSelectAll();
    SelectReturnsStore(a.store, MirrorSql, [], env.now);
  }

  /** On the MockDB the mirror re-select answers with the whole store and changes nothing. */
  lemma MirrorOnMock(st: State, env: Env)
    requires st.db.Fallback?
    ensures Run(st, Mirror, env) == Outcome(st, Success(QueryResult(st.db.patients, PatientColumns)))
  {
    MirrorIsSelectAll();
    SelectReturnsStore(st.db.patients, MirrorSql, [], env.now);
  }

  /**
    An insert on the MockDB with storage available writes the snapshot twice,
    once from MockDB.query and once from the layer's own save, before the
    change message and the `current_tab` event.
   */
  lemma MockInsertEffects(st: State, s: Statement, env: Env)
    requires Ready(st) && st.channel && st.db.Fallback? && Classify(s.text) == Insert && !env.quotaExceeded
    ensures var o := ExecuteQuery(st, s, env);
      var a := Step(st.db.patients, s.text, s.params, env.now);
      var js := JsonifyAll(a.store);
      && o.result == Success(a.result)
      && o.state.db == Fallback(a.store)
      && o.state.slot == Stored(js)
      && o.state.effects == st.effects + [Wrote(js), Wrote(js), Posted(ChangeMessage), Dispatched(DbUpdated(CurrentTab, PatientsTable))]
  {
    var a := Step(st.db.patients, s.text, s.params, env.now);
    var js := JsonifyAll(a.store);
    assert GetDB(st, env) == Outcome(st, Success(st.db));
    var q := Run(st, s, env);
    assert q.state == st.(db := Fallback(a.store), slot := Stored(js), effects := st.effects + [Wrote(js)]);
    MirrorOnMock(q.state, env);
    MockInsertIsMutating(s.text);
  }

  /**
    On the MockDB an `update patients` or `delete from patients` statement
    that the MockDB does not recognise leaves the store as it was, yet the
    snapshot is rewritten and both notifications go out.
   */
  lemma MockUpdateStillNotifies(st: State, s: Statement, env: Env)
    requires Consistent(st, env) && Ready(st) && st.db.Fallback? && !env.quotaExceeded
    requires Classify(s.text) == Unrecognised && IsMutating(s.text)
    ensures var o := ExecuteQuery(st, s, env);
      && o.result == Success(EmptyResult)
      && o.state.db == st.db
      && o.state.slot == Stored(JsonifyAll(st.db.patients))
      && o.state.effects == st.effects
           + [Wrote(JsonifyAll(st.db.patients)), Posted(ChangeMessage), Dispatched(DbUpdated(CurrentTab, PatientsTable))]
  {
    MockMutatingEffects(st, s, env);
    OtherStatementsChangeNothing(st.db.patients, s.text, s.params, env.now);
  }

  /**
    On the primary engine a mutating statement that succeeds, followed by a
    mirror re-select that succeeds, with storage available: the engine ran
    the statement then the unordered re-select, the snapshot holds the
    re-select's rows, and the page saw exactly that write, then the change
    message, then the event.
   */
  lemma PrimaryMutatingEffects(st: State, s: Statement, env: Env)
    requires Consistent(st, env) && Ready(st) && st.db.Primary? && IsMutating(s.text) && !env.quotaExceeded
    requires Respond(env, st.db.attempt, st.db.log, s).Success?
    requires Respond(env, st.db.attempt, st.db.log + [s], Mirror).Success?
    ensures var o := ExecuteQuery(st, s, env);
      var mirrored := Respond(env, st.db.attempt, st.db.log + [s], Mirror).value.rows;
      && o.result == Respond(env, st.db.attempt, st.db.log, s)
      && o.state.db == Primary(st.db.attempt, st.db.log + [s, Mirror])
      && o.state.slot == Stored(JsonifyAll(mirrored))
      && o.state.effects == st.effects
           + [Wrote(JsonifyAll(mirrored)), Posted(ChangeMessage), Dispatched(DbUpdated(CurrentTab, PatientsTable))]
  {
    assert st.db.log + [s] + [Mirror] == st.db.log + [s, Mirror];
  }

  /**
    With storage refusing writes, a mutating statement always rejects, on an
    initialised page or one that must initialise first, and no message or
    event goes out: the uncaught `setItem` error skips the notifications.
   */
  lemma QuotaExceededSkipsNotifications(st: State, s: Statement, env: Env)
    requires Consistent(st, env) && IsMutating(s.text) && env.quotaExceeded
    ensures var o := ExecuteQuery(st, s, env);
      && o.result.Failure?
      && o.state.slot == st.slot && o.state.effects == st.effects
  {
    if !Ready(st) {
      InitializeFailsExactly(st, env);
    }
    var init := GetDB(st, env);
    if init.result.Success? {
      var q := Run(init.state, s, env);
      if q.result.Success? {
        var m := Run(q.state, Mirror, env);
      }
    }
  }

  /**
    Whatever makes `executeQuery` reject (initialisation, the statement, the
    mirror re-select or the snapshot write), the page sees nothing: the slot
    is as it was and no write, message or event is logged.
   */
  lemma RejectionHasNoEffects(st: State, s: Statement, env: Env)
    ensures var o := ExecuteQuery(st, s, env);
      o.result.Failure? ==> o.state.slot == st.slot && o.state.effects == st.effects
  {
    if !Ready(st) {
      InitializeFailsExactly(st, env);
    }
    var init := GetDB(st, env);
    if init.result.Success? {
      WrapRejectionHasNoEffects(init.state, s, env);
    }
  }

  /** The same once an engine is held: a rejected statement, re-select or write leaves the page as it was. */
  lemma WrapRejectionHasNoEffects(st: State, s: Statement, env: Env)
    requires st.db != NoEngine
    ensures var o := Wrap(st, s, env);
      o.result.Failure? ==> o.state.slot == st.slot && o.state.effects == st.effects
  {
    var q := Run(st, s, env);
    if q.result.Success? && IsMutating(s.text) {
      var m := Run(q.state, Mirror, env);
    }
  }

  /** `OrEmpty` of an optional string is the string, or `''` when it is absent. */
  lemma OrEmptyProp(o: Option<string>)
    ensures OrEmpty(Prop(o)) == Str(Text(o))
  {
  }

  /**
    addPatient on the MockDB with storage available appends one record whose
    id is one past the old count, whose eight fields are the input's with
    absent optional fields stored as `''`, and whose `created_at` is the
    clock; it returns `{ id }`, the snapshot holds the new store, written
    twice (by the MockDB, then by the layer), then both notifications go out.
   */
  lemma AddPatientOnMock(st: State, p: PatientInput, env: Env)
    requires Consistent(st, env) && Ready(st) && st.db.Fallback? && !env.quotaExceeded
    ensures var o := AddPatient(st, p, env);
      var old_ := st.db.patients;
      var n := |old_|;
      && o.result == Success(QueryResult([map["id" := Num(n + 1)]], [Column("id")]))
      && o.state.db.Fallback? && |o.state.db.patients| == n + 1
      && o.state.db.patients[..n] == old_
      && var rec := o.state.db.patients[n];
      && Field(rec, "id") == Num(n + 1) && Field(rec, "created_at") == Str(env.now)
      && Field(rec, "first_name") == Str(p.firstName) && Field(rec, "last_name") == Str(p.lastName)
      && Field(rec, "date_of_birth") == Str(p.dateOfBirth) && Field(rec, "gender") == Str(p.gender)
      && Field(rec, "email") == Str(Text(p.email)) && Field(rec, "phone") == Str(Text(p.phone))
      && Field(rec, "address") == Str(Text(p.address))
      && Field(rec, "medical_history") == Str(Text(p.medicalHistory))
      && o.state.slot == Stored(JsonifyAll(o.state.db.patients))
      && var js := JsonifyAll(o.state.db.patients);
      && o.state.effects == st.effects + [Wrote(js), Wrote(js), Posted(ChangeMessage), Dispatched(DbUpdated(CurrentTab, PatientsTable))]
  {
    var params := PatientParams(p);
    InsertSqlIsInsert();
    MockInsertEffects(st, Statement(InsertSql, params), env);
    InsertAppendsOne(st.db.patients, InsertSql, params, env.now);
    NewRecordIsPositional(|st.db.patients| + 1, params, env.now);
    OrEmptyProp(p.email);
    OrEmptyProp(p.phone);
    OrEmptyProp(p.address);
    OrEmptyProp(p.medicalHistory);
  }

  /**
    getAllPatients on the MockDB returns the whole store in insertion order,
    despite the ORDER BY, and changes nothing.
   */
  lemma GetAllPatientsOnMock(st: State, env: Env)
    requires Consistent(st, env) && Ready(st) && st.db.Fallback?
    ensures GetAllPatients(st, env) == Outcome(st, Success(st.db.patients))
  {
    ListIsSelectAll();
    SelectReturnsStore(st.db.patients, ListSql, [], env.now);
  }

  /**
    On the MockDB with storage available, a patient added and the list read
    back: the list holds every earlier record in place and the new one last
    (insertion order, not newest first), with the input's fields.
   */
  lemma AddThenListOnMock(st: State, p: PatientInput, env: Env)
    requires Consistent(st, env) && Ready(st) && st.db.Fallback? && !env.quotaExceeded
    ensures var o := AddPatient(st, p, env);
      var l := GetAllPatients(o.state, env);
      var n := |st.db.patients|;
      && l.state == o.state && l.result.Success?
      && |l.result.value| == n + 1 && l.result.value[..n] == st.db.patients
      && Field(l.result.value[n], "id") == Num(n + 1)
      && l.result.value == o.state.db.patients
      && var rec := l.result.value[n];
      && Field(rec, "created_at") == Str(env.now)
      && Field(rec, "first_name") == Str(p.firstName) && Field(rec, "last_name") == Str(p.lastName)
      && Field(rec, "date_of_birth") == Str(p.dateOfBirth) && Field(rec, "gender") == Str(p.gender)
      && Field(rec, "email") == Str(Text(p.email)) && Field(rec, "phone") == Str(Text(p.phone))
      && Field(rec, "address") == Str(Text(p.address))
      && Field(rec, "medical_history") == Str(Text(p.medicalHistory))
  {
    var o := AddPatient(st, p, env);
    AddPatientOnMock(st, p, env);
    ExecuteKeepsConsistent(st, Statement(InsertSql, PatientParams(p)), env);
    GetAllPatientsOnMock(o.state, env);
  }

  /**
    Once the channel is open, a `db_change` message adds exactly one
    `other_tab` event naming the message's table and nothing else; any
    other message, or any message before the channel exists, changes nothing.
   */
  lemma ChannelMessageEffect(st: State, m: Message)
    ensures var r := OnChannelMessage(st, m);
      && r == st.(effects := r.effects)
      && (st.channel && m.kind == ChangeKind ==>
            |r.effects| == |st.effects| + 1 && r.effects[..|st.effects|] == st.effects
            && r.effects[|st.effects|] == Dispatched(DbUpdated(OtherTab, m.table)))
      && (!st.channel || m.kind != ChangeKind ==> r == st)
  {
  }

  /**
    Restart after a mutating statement on the MockDB: when storage accepted
    the write, a MockDB hydrated afresh from the slot holds as many records
    as the live store, each with the same value in every field; when storage
    refused it, the slot is what it was before the statement.
   */
  lemma RestartRestoresStore(st: State, s: Statement, env: Env)
    requires Consistent(st, env) && Ready(st) && st.db.Fallback? && IsMutating(s.text)
    ensures var o := ExecuteQuery(st, s, env);
      && o.state.db.Fallback?
      && (!env.quotaExceeded ==>
            var restored, live := Hydrate(o.state.slot), o.state.db.patients;
            && |restored| == |live|
            && forall i, k :: 0 <= i < |live| ==> Field(restored[i], k) == Field(live[i], k))
      && (env.quotaExceeded ==> o.state.slot == st.slot)
  {
    var o := ExecuteQuery(st, s, env);
    ExecuteKeepsConsistent(st, s, env);
    if env.quotaExceeded {
      QuotaExceededSkipsNotifications(st, s, env);
    } else {
      MockMutatingEffects(st, s, env);
      SnapshotRoundTrip(o.state.db.patients);
    }
  }
}
