/**
  The module globals of src/lib/db.ts and the functions that update them
  step by step: initializeDB, getDB, executeQuery, addPatient,
  getAllPatients and the channel's message handler. Each method is proved
  to leave the page in the state, and return the result, that the matching
  function of module DbSpec describes.
 */
module Db {
  import opened Records
  import opened Browser
  import opened Mock
  import opened Sql
  import opened DbSpec
  import opened DbProperties

  /** A PGlite instance as the data layer sees it: it runs statements and remembers them. */
  class PGlite {
    const attempt: nat
    const respond: Responder
    /** The statements this instance has run, oldest first. */
    var log: seq<Statement>

    constructor (attempt: nat, respond: Responder)
      ensures this.attempt == attempt && this.respond == respond && log == []
    {
      this.attempt := attempt;
      this.respond := respond;
      log := [];
    }

    /** `query(s)`: the oracle's answer given everything run before. */
    method Query(s: Statement) returns (r: Result<QueryResult>)
      modifies this`log
      ensures r == respond(old(log), s) && log == old(log) + [s]
    {
      r := respond(log, s);
      log := log + [s];
    }
  }

  /** The value of the global `db`; `Unset` is null. */
  datatype Handle = Unset | OfPrimary(p: PGlite) | OfMock(m: MockDB)

  class Database {
    var db: Handle
    var isInitialized: bool
    var usingMockDB: bool
    /** Whether the global `channel` is non-null. */
    var channel: bool
    /** How many times `new PGlite()` has been attempted. */
    var constructions: nat

    const window: Window
    const pglite: nat -> Availability
    const broadcastSupported: bool

    /** The page as loaded: every global at its initial value. */
    constructor (window: Window, pglite: nat -> Availability, broadcastSupported: bool)
      ensures this.window == window && this.pglite == pglite && this.broadcastSupported == broadcastSupported
      ensures Valid()
      ensures Abstract() == State(NoEngine, false, false, false, 0, window.slot, window.effects)
    {
      this.window := window;
      this.pglite := pglite;
      this.broadcastSupported := broadcastSupported;
      db := Unset;
      isInitialized := false;
      usingMockDB := false;
      channel := false;
      constructions := 0;
    }

    /** The engine object held, if any. */
    function Engines(): set<object>
      reads this
    {
      match db
      case Unset => {}
      case OfPrimary(p) => {p}
      case OfMock(m) => {m}
    }

    function Env(): Env
      reads this, window
    {
      DbSpec.Env(pglite, broadcastSupported, window.quotaExceeded, window.now)
    }

    function EngineState(): Engine
      reads this, Engines()
    {
      match db
      case Unset => NoEngine
      case OfPrimary(p) => Primary(p.attempt, p.log)
      case OfMock(m) => Fallback(m.patients)
    }

    /** The globals and the page, as a DbSpec state. */
    function Abstract(): State
      reads this, window, Engines()
    {
      State(EngineState(), isInitialized, usingMockDB, channel, constructions,
            window.slot, window.effects)
    }

    /** The engine held is wired to this page and to its construction attempt. */
    ghost predicate Wired()
      reads this, window, Engines()
    {
      && (db.OfMock? ==> db.m.window == window)
      && (db.OfPrimary? ==> pglite(db.p.attempt).Available? && db.p.respond == pglite(db.p.attempt).respond)
    }

    /** Between calls the engine is wired and DbSpec's invariant holds. */
    ghost predicate Valid()
      reads this, window, Engines()
    {
      Wired() && Consistent(Abstract(), Env())
    }

    /** `database.query(s)` on the engine held. */
    method RunOn(s: Statement) returns (r: Result<QueryResult>)
      requires Wired() && db != Unset
      modifies window`slot, window`effects, Engines()
      ensures db == old(db) && Wired() && Env() == old(Env())
      ensures var o := Run(old(Abstract()), s, Env()); Abstract() == o.state && r == o.result
    {
      match db
      case OfPrimary(p) =>
        r := p.Query(s);
      case OfMock(m) =>
        var q := m.Query(s.text, s.params);
        r := Success(q);
    }

    /** `initializeDB()`. */
    method InitializeDB() returns (r: Result<Handle>)
      requires Valid()
      modifies this, window`slot, window`effects, Engines()
      ensures Env() == old(Env())
      ensures Valid()
      ensures Engines() <= old(Engines()) || fresh(Engines())
      ensures var o := Initialize(old(Abstract()), Env());
        && Abstract() == o.state
        && (r.Success? <==> o.result.Success?)
        && (r.Success? ==> r.value == db)
        && (r.Failure? ==> r.error == o.result.error)
    {
      ghost var before := Abstract();
      ghost var env := Env();
      InitializeKeepsConsistent(before, env);
      if isInitialized && db != Unset {
        return Success(db);
      }
      r := Reinitialize();
    }

    /** `initializeDB()` past its early return: select an engine, open the channel, prepare the schema. */
    method Reinitialize() returns (r: Result<Handle>)
      requires Wired() && !isInitialized
      modifies this, window`slot, window`effects
      ensures Env() == old(Env())
      ensures Wired() && fresh(Engines())
      ensures var o := Initialize(old(Abstract()), Env());
        && Abstract() == o.state
        && (r.Success? <==> o.result.Success?)
        && (r.Success? ==> r.value == db)
        && (r.Failure? ==> r.error == o.result.error)
    {
      ghost var before := Abstract();
      ghost var env := Env();
      SelectEngine();
      ghost var selected := DbSpec.SelectEngine(before, env);
      assert Abstract() == selected;
      if !broadcastSupported {
        isInitialized := false;
        db := Unset;
        return Failure(ChannelUnsupported);
      }
      channel := true;
      assert Abstract() == selected.(channel := true);
      r := PrepareSelected();
    }

    /** Construct the primary engine and smoke-test it, falling back to a MockDB. */
    method SelectEngine()
      requires Wired()
      modifies this`db, this`usingMockDB, this`constructions
      ensures Wired() && fresh(Engines()) && db != Unset
      ensures Abstract() == DbSpec.SelectEngine(old(Abstract()), Env())
    {
      var attempt := constructions;
      constructions := constructions + 1;
      var available := pglite(attempt);
      if available.Available? {
        var p := new PGlite(attempt, available.respond);
        var smoke := p.Query(SmokeTest);
        if smoke.Success? {
          db := OfPrimary(p);
          usingMockDB := false;
          assert p.log == [SmokeTest];
          return;
        }
      }
      var m := new MockDB(window);
      db := OfMock(m);
      usingMockDB := true;
    }

    /** Run the schema statement on the selected engine, then mark the layer initialised and replay. */
    method PrepareSelected() returns (r: Result<Handle>)
      requires Wired() && db != Unset && channel && !isInitialized
      requires db.OfPrimary? ==> !usingMockDB && db.p.attempt < constructions
      requires db.OfMock? ==> usingMockDB
      modifies this`db, this`isInitialized, window`slot, window`effects, Engines()
      ensures Env() == old(Env())
      ensures Wired() && (Engines() <= old(Engines()))
      ensures var st := old(Abstract());
        var schema := Run(st, Schema, Env());
        var o := if schema.result.Failure? then
                   Outcome(schema.state.(isInitialized := false, db := NoEngine), Failure(schema.result.error))
                 else
                   var ready := schema.state.(isInitialized := true);
                   var replayed := if ready.usingMockDB then ready else DbSpec.ReplaySnapshot(ready, Env());
                   Outcome(replayed, Success(replayed.db));
        && Abstract() == o.state
        && (r.Success? <==> o.result.Success?)
        && (r.Success? ==> r.value == db)
        && (r.Failure? ==> r.error == o.result.error)
    {
      var schema := RunOn(Schema);
      if schema.Failure? {
        isInitialized := false;
        db := Unset;
        return Failure(schema.error);
      }
      isInitialized := true;
      if !usingMockDB {
        ReplaySnapshot();
      }
      return Success(db);
    }

    /** The replay loop of initializeDB: one insert per stored record, stopping at the first failure. */
    method ReplaySnapshot()
      requires Valid() && db.OfPrimary?
      modifies db.p
      ensures Valid() && db == old(db)
      ensures Abstract() == DbSpec.ReplaySnapshot(old(Abstract()), Env())
    {
      var p := db.p;
      if window.slot.Stored? {
        var patients := window.slot.rows;
        var i := 0;
        while i < |patients|
          invariant 0 <= i <= |patients|
          invariant Valid() && db == OfPrimary(p)
          invariant DbSpec.ReplaySnapshot(old(Abstract()), Env())
                    == ReplayRows(Abstract(), patients[i..], Env())
        {
          var r := p.Query(ReplayRow(patients[i]));
          if r.Failure? {
            return;
          }
          assert patients[i..][1..] == patients[i + 1..];
          i := i + 1;
        }
      }
    }

    /** `getDB()`. */
    method GetDB() returns (r: Result<Handle>)
      requires Valid()
      modifies this, window`slot, window`effects, Engines()
      ensures Env() == old(Env())
      ensures Valid()
      ensures Engines() <= old(Engines()) || fresh(Engines())
      ensures var o := DbSpec.GetDB(old(Abstract()), Env());
        && Abstract() == o.state
        && (r.Success? <==> o.result.Success?)
        && (r.Success? ==> r.value == db)
        && (r.Failure? ==> r.error == o.result.error)
    {
      if !isInitialized || db == Unset {
        r := InitializeDB();
      } else {
        r := Success(db);
      }
    }

    /** `executeQuery(text, params)`. */
    method ExecuteQuery(text: string, params: seq<Value>) returns (r: Result<QueryResult>)
      requires Valid()
      modifies this, window`slot, window`effects, Engines()
      ensures Engines() <= old(Engines()) || fresh(Engines())
      ensures Env() == old(Env())
      ensures Valid()
      ensures var o := DbSpec.ExecuteQuery(old(Abstract()), Statement(text, params), Env());
        Abstract() == o.state && r == o.result
    {
      ghost var env := Env();
      ghost var s := Statement(text, params);
      ExecuteKeepsConsistent(Abstract(), s, env);
      ghost var init := DbSpec.GetDB(old(Abstract()), env);
      var database := GetDB();
      assert Abstract() == init.state;
      if database.Failure? {
        return Failure(database.error);
      }
      r := Wrap(text, params);
    }

    /** The body of `executeQuery` once the engine is ready: run, then publish a mutation. */
    method Wrap(text: string, params: seq<Value>) returns (r: Result<QueryResult>)
      requires Wired() && db != Unset
      modifies window`slot, window`effects, Engines()
      ensures Env() == old(Env())
      ensures Wired() && db == old(db)
      ensures var o := DbSpec.Wrap(old(Abstract()), Statement(text, params), Env());
        Abstract() == o.state && r == o.result
    {
      ghost var q := Run(old(Abstract()), Statement(text, params), Env());
      var result := RunOn(Statement(text, params));
      assert Abstract() == q.state && result == q.result;
      if result.Failure? || !IsMutating(text) {
        return result;
      }
      r := Publish(result);
    }

    /** The mirror, snapshot and notifications that follow a mutating statement. */
    method Publish(result: Result<QueryResult>) returns (r: Result<QueryResult>)
      requires Wired() && db != Unset
      modifies window`slot, window`effects, Engines()
      ensures Env() == old(Env())
      ensures Wired() && db == old(db)
      ensures var o := DbSpec.Publish(old(Abstract()), result, Env());
        Abstract() == o.state && r == o.result
    {
      ghost var m := Run(old(Abstract()), Mirror, Env());
      var patients := RunOn(Mirror);
      if patients.Failure? {
        return Failure(patients.error);
      }
      assert Abstract() == m.state;
      r := Save(patients.value.rows, result);
    }

    /** Write the snapshot; if storage accepts it, notify the channel and this tab. */
    method Save(rows: seq<Row>, result: Result<QueryResult>) returns (r: Result<QueryResult>)
      modifies window`slot, window`effects
      ensures Env() == old(Env())
      ensures var o := DbSpec.Save(old(Abstract()), rows, result, Env());
        Abstract() == o.state && r == o.result
    {
      var ok := window.SetSnapshot(rows);
      if !ok {
        return Failure(QuotaError);
      }
      Notify();
      return result;
    }

    /** Post the change message if a channel exists, then dispatch a `current_tab` event. */
    method Notify()
      modifies window`effects
      ensures window.effects ==
        old(window.effects) + (if channel then [Posted(ChangeMessage)] else []) + [Dispatched(DbUpdated(CurrentTab, PatientsTable))]
    {
      if channel {
        window.Post(ChangeMessage);
      }
      window.Dispatch(DbUpdated(CurrentTab, PatientsTable));
    }

    /** `addPatient(input)`. */
    method AddPatient(input: PatientInput) returns (r: Result<QueryResult>)
      requires Valid()
      modifies this, window`slot, window`effects, Engines()
      ensures Valid()
      ensures var o := DbSpec.AddPatient(old(Abstract()), input, Env());
        Abstract() == o.state && r == o.result
    {
      r := ExecuteQuery(InsertSql, PatientParams(input));
    }

    /** `getAllPatients()`. */
    method GetAllPatients() returns (r: Result<seq<Row>>)
      requires Valid()
      modifies this, window`slot, window`effects, Engines()
      ensures Valid()
      ensures var o := DbSpec.GetAllPatients(old(Abstract()), Env());
        Abstract() == o.state && r == o.result
    {
      var result := ExecuteQuery(ListSql, []);
      if result.Failure? {
        return Failure(result.error);
      }
      return Success(result.value.rows);
    }

    /** The channel's `onmessage` handler; it exists only once the channel is open. */
    method OnChannelMessage(m: Message)
      requires Valid()
      modifies window`effects
      ensures Valid()
      ensures Abstract() == DbSpec.OnChannelMessage(old(Abstract()), m)
    {
      if channel && m.kind == ChangeKind {
        window.Dispatch(DbUpdated(OtherTab, m.table));
      }
    }
  }
}
