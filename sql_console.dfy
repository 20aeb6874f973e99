/**
  The SQL console of src/components/SqlQueryInterface.tsx: a gate that lets
  through only text that begins with `select` once trimmed and lower-cased,
  the column-name extraction, the cell display rule, and `runQuery`, which
  updates the component's `isLoading`, `error` and `results` in turn.
 */
module SqlConsole {
  import opened JsText
  import opened Records
  import opened Browser
  import opened Mock
  import opened Sql
  import opened DbSpec
  import opened DbProperties
  import Db

  const SelectPrefix := "select"
  const SelectOnlyMessage := "Only SELECT queries are allowed in this interface"

  /** The text the query box starts with. */
  const DefaultQuery := "SELECT" + " * FROM patients LIMIT 10"

  /** `query.trim().toLowerCase().startsWith('select')`. */
  predicate Admits(query: string) {
    StartsWith(Lower(Trim(query)), SelectPrefix)
  }

  /** The gate does not see case: a query and its lower-cased form are admitted alike. */
  lemma GateIgnoresCase(query: string)
    ensures Admits(Lower(query)) <==> Admits(query)
  {
    TrimLowerCommute(query);
    LowerIdempotent(Trim(query));
  }

  /** The gate does not see white space added before or after the query. */
  lemma GateIgnoresSurroundingSpace(before: string, query: string, after: string)
    requires forall k :: 0 <= k < |before| ==> IsSpace(before[k])
    requires forall k :: 0 <= k < |after| ==> IsSpace(after[k])
    ensures Admits(before + query + after) <==> Admits(query)
  {
    TrimIgnoresSurroundingSpace(before, query, after);
  }

  /**
    Only the first six characters are inspected: any text whose first word
    is `select` in any case passes, whatever follows it.
   */
  lemma {:induction false} GateChecksOnlyThePrefix(head: string, rest: string)
    requires Lower(head) == SelectPrefix
    ensures Admits(head + rest)
  {
    var s := head + rest;
    assert |head| == 6;
    forall k | 0 <= k < 6
      ensures !IsSpace(s[k])
    {
      assert s[k] == head[k];
      assert Lower(head)[k] == LowerChar(head[k]);
    }
    assert TrimStart(s) == s;
    var t := TrimEnd(s);
    TrimEndShape(s);
    assert !IsSpace(s[5]);
    assert |t| >= 6;
    assert Trim(s) == t;
    assert t[..6] == head;
    assert Lower(t)[..6] == Lower(head);
  }

  /** The box's initial text passes the gate. */
  lemma DefaultQueryAdmitted()
    ensures Admits(DefaultQuery)
  {
    assert Lower("SELECT") == SelectPrefix;
    GateChecksOnlyThePrefix("SELECT", " * FROM patients LIMIT 10");
  }

  /** A statement that starts with `select` and goes on to name an insert. */
  const InsertBehindSelect := "select" + InsertAfterSelect
  const InsertAfterSelect := " " + InsertPhrase

  lemma LowerInsertBehindSelect()
    ensures Lower(InsertBehindSelect) == InsertBehindSelect
  {
    var a, b, c := "select", " insert into ", "patients";
    assert Lower(a) == a;
    assert Lower(b) == b;
    assert Lower(c) == c;
    assert InsertAfterSelect == b + c;
    LowerAppend(b, c);
    LowerAppend(a, InsertAfterSelect);
  }

  lemma InsertBehindSelectLacksB()
    ensures 'b' !in InsertBehindSelect
  {
    var a, b, c := "select", " insert into ", "patients";
    assert 'b' !in a;
    assert 'b' !in b;
    assert 'b' !in c;
    assert InsertAfterSelect == b + c;
  }

  lemma InsertBehindSelectAdmitted()
    ensures Admits(InsertBehindSelect)
  {
    assert Lower("select") == SelectPrefix;
    GateChecksOnlyThePrefix("select", InsertAfterSelect);
  }

  lemma InsertBehindSelectIsInsert()
    ensures Classify(InsertBehindSelect) == Insert
  {
    LowerInsertBehindSelect();
    InsertBehindSelectLacksB();
    assert 'b' in CreateTablePhrase;
    NotContainsMissing(InsertBehindSelect, CreateTablePhrase, 'b');
    ContainsInfix("select ", InsertPhrase, []);
    assert "select " + InsertPhrase + [] == "select" + (" " + InsertPhrase);
  }

  /**
    The gate and the MockDB read different parts of the text: a statement
    that starts with `select` but includes `insert into patients` passes the
    gate, and the MockDB runs it as an insert.
   */
  lemma InsertPassesGate()
    ensures Admits(InsertBehindSelect) && Classify(InsertBehindSelect) == Insert
  {
    InsertBehindSelectAdmitted();
    InsertBehindSelectIsInsert();
  }

  /**
    So, on a page running on the MockDB with storage available, that
    statement typed into the console adds a record, rewrites the snapshot
    and notifies the other tabs and this one.
   */
  lemma ConsoleInsertOnMock(st: State, env: Env)
    requires Consistent(st, env) && Ready(st) && st.db.Fallback? && !env.quotaExceeded
    ensures Admits(InsertBehindSelect)
    ensures var o := DbSpec.ExecuteQuery(st, Statement(InsertBehindSelect, []), env);
      && o.state.db.Fallback?
      && |o.state.db.patients| == |st.db.patients| + 1
      && o.state.db.patients[..|st.db.patients|] == st.db.patients
      && o.state.slot == Stored(JsonifyAll(o.state.db.patients))
      && var js := JsonifyAll(o.state.db.patients);
      && o.state.effects == st.effects + [Wrote(js), Wrote(js), Posted(ChangeMessage), Dispatched(DbUpdated(CurrentTab, PatientsTable))]
  {
    InsertPassesGate();
    var s := Statement(InsertBehindSelect, []);
    MockInsertEffects(st, s, env);
    InsertAppendsOne(st.db.patients, s.text, s.params, env.now);
  }

  /** `queryResult.columns.map(col => col.name)`. */
  function ColumnNames(cols: seq<Column>): (names: seq<string>)
    ensures |names| == |cols|
    ensures forall i :: 0 <= i < |cols| ==> names[i] == cols[i].name
  {
    if cols == [] then [] else [cols[0].name] + ColumnNames(cols[1..])
  }

  /**
    The text of one cell: `'null'` for null, `String(v)` otherwise, so a
    column the row lacks shows `undefined`. The null test agrees with
    `String` itself: every cell is `String(row[column])`.
   */
  function CellText(row: Row, column: string): (t: string)
    ensures t == JsString(Field(row, column))
    ensures Field(row, column) == Null ==> t == "null"
    ensures column !in row ==> t == "undefined"
  {
    if Field(row, column) != Null then JsString(Field(row, column)) else "null"
  }

  /** What the console displays: the column names and the rows of a result. */
  datatype Results = Results(columns: seq<string>, rows: seq<Row>)

  /** The component state. */
  class QueryConsole {
    var query: string
    var results: Option<Results>
    var isLoading: bool
    var error: Option<string>

    constructor ()
      ensures query == DefaultQuery && results == None && !isLoading && error == None
    {
      query := DefaultQuery;
      results := None;
      isLoading := false;
      error := None;
    }

    /** Typing in the query box. */
    method Edit(text: string)
      modifies this`query
      ensures query == text
    {
      query := text;
    }

    /**
      `runQuery`. Text the gate refuses sets the error to the select-only
      message without reaching the data layer. Otherwise the untrimmed text
      goes to `executeQuery` with no parameters: a success shows its column
      names and rows and clears the error, a failure shows its message and
      keeps the results shown before. Loading ends either way.
     */
    method RunQuery(database: Db.Database)
      requires database.Valid()
      modifies this`results, this`isLoading, this`error
      modifies database, database.window`slot, database.window`effects, database.Engines()
      ensures database.Valid() && !isLoading && query == old(query)
      ensures !Admits(query) ==>
        && error == Some(SelectOnlyMessage) && results == old(results)
        && database.Abstract() == old(database.Abstract())
      ensures Admits(query) ==>
        var o := DbSpec.ExecuteQuery(old(database.Abstract()), Statement(query, []), old(database.Env()));
        && database.Abstract() == o.state
        && (o.result.Success? ==>
              error == None && results == Some(Results(ColumnNames(o.result.value.columns), o.result.value.rows)))
        && (o.result.Failure? ==> error == Some(o.result.error) && results == old(results))
    {
      ghost var before, env := database.Abstract(), database.Env();
      assert this !in database.Engines();
      isLoading := true;
      error := None;
      if !Admits(query) {
        error := Some(SelectOnlyMessage);
        isLoading := false;
        assert database.Abstract() == before;
        return;
      }
      assert database.Abstract() == before && database.Env() == env;
      Submit(database);
    }

    /** The part of `runQuery` after the gate: run the text and show what comes back. */
    method Submit(database: Db.Database)
      requires database.Valid() && error == None
      modifies this`results, this`isLoading, this`error
      modifies database, database.window`slot, database.window`effects, database.Engines()
      ensures database.Valid() && !isLoading && query == old(query)
      ensures var o := DbSpec.ExecuteQuery(old(database.Abstract()), Statement(query, []), old(database.Env()));
        && database.Abstract() == o.state
        && (o.result.Success? ==>
              error == None && results == Some(Results(ColumnNames(o.result.value.columns), o.result.value.rows)))
        && (o.result.Failure? ==> error == Some(o.result.error) && results == old(results))
    {
      assert this !in database.Engines();
      var result := database.ExecuteQuery(query, []);
      assert this !in database.Engines();
      ghost var after := database.Abstract();
      if result.Success? {
        results := Some(Results(ColumnNames(result.value.columns), result.value.rows));
      } else {
        error := Some(result.error);
      }
      isLoading := false;
      assert database.Abstract() == after;
    }
  }
}
