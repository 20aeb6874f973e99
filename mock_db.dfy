/**
  MockDB, the fallback engine of src/lib/db.ts: an in-memory list of patient
  records that recognises three statement shapes by substring and mirrors
  itself into localStorage after every insert.
 */
module Mock {
  import opened JsText
  import opened Records
  import opened Browser

  const CreateTablePhrase := "create table"
  const InsertPhrase := "insert into patients"
  const SelectAllPhrase := "select * from patients"

  /** The four branches of MockDB.query. */
  datatype Kind = CreateTable | Insert | SelectAll | Unrecognised

  /**
    MockDB.query's dispatch: the text is lower-cased and trimmed, then the
    first of the three phrases it includes decides. Trimming never changes
    the outcome, so the contract speaks of the lower-cased text alone.
   */
  function Classify(text: string): (k: Kind)
    ensures k == CreateTable <==> Contains(Lower(text), CreateTablePhrase)
    ensures k == Insert <==>
      !Contains(Lower(text), CreateTablePhrase) && Contains(Lower(text), InsertPhrase)
    ensures k == SelectAll <==>
      !Contains(Lower(text), CreateTablePhrase) && !Contains(Lower(text), InsertPhrase)
      && Contains(Lower(text), SelectAllPhrase)
  {
    var q := Trim(Lower(text));
    ContainsTrim(Lower(text), CreateTablePhrase);
    ContainsTrim(Lower(text), InsertPhrase);
    ContainsTrim(Lower(text), SelectAllPhrase);
    if Contains(q, CreateTablePhrase) then CreateTable
    else if Contains(q, InsertPhrase) then Insert
    else if Contains(q, SelectAllPhrase) then SelectAll
    else Unrecognised
  }

  /** The column list a mock `select * from patients` reports, in this order. */
  const PatientColumns := [
    Column("id"), Column("first_name"), Column("last_name"), Column("date_of_birth"),
    Column("gender"), Column("email"), Column("phone"), Column("address"),
    Column("medical_history"), Column("created_at")]

  /** The record a mock insert builds from the positional parameters and the clock. */
  function NewRecord(id: int, params: seq<Value>, now: string): (r: Row)
    ensures Field(r, "id") == Num(id) && Field(r, "created_at") == Str(now)
    ensures Field(r, "first_name") == Param(params, 0) && Field(r, "last_name") == Param(params, 1)
    ensures Field(r, "date_of_birth") == Param(params, 2) && Field(r, "gender") == Param(params, 3)
    ensures Field(r, "email") == Param(params, 4) && Field(r, "phone") == Param(params, 5)
    ensures Field(r, "address") == Param(params, 6) && Field(r, "medical_history") == Param(params, 7)
  {
    map[
      "id" := Num(id),
      "first_name" := Param(params, 0),
      "last_name" := Param(params, 1),
      "date_of_birth" := Param(params, 2),
      "gender" := Param(params, 3),
      "email" := Param(params, 4),
      "phone" := Param(params, 5),
      "address" := Param(params, 6),
      "medical_history" := Param(params, 7),
      "created_at" := Str(now)]
  }

  /** A store and the result MockDB.query hands back. */
  datatype Answer = Answer(store: seq<Row>, result: QueryResult)

  /** What MockDB.query does to its store and what it returns, at clock reading `now`. */
  function Step(store: seq<Row>, text: string, params: seq<Value>, now: string): Answer {
    match Classify(text)
    case CreateTable => Answer(store, EmptyResult)
    case Insert =>
      var id := |store| + 1;
      Answer(store + [NewRecord(id, params, now)], QueryResult([map["id" := Num(id)]], [Column("id")]))
    case SelectAll => Answer(store, QueryResult(store, PatientColumns))
    case Unrecognised => Answer(store, EmptyResult)
  }

  /** The eight parameters land, in order, in the fields named by columns 1..8. */
  lemma NewRecordIsPositional(id: int, params: seq<Value>, now: string)
    ensures forall i :: 0 <= i < 8 ==> Field(NewRecord(id, params, now), PatientColumns[i + 1].name) == Param(params, i)
  {
    var r := NewRecord(id, params, now);
    forall i | 0 <= i < 8 ensures Field(r, PatientColumns[i + 1].name) == Param(params, i) {
      if i == 0 { assert PatientColumns[1].name == "first_name"; }
      else if i == 1 { assert PatientColumns[2].name == "last_name"; }
      else if i == 2 { assert PatientColumns[3].name == "date_of_birth"; }
      else if i == 3 { assert PatientColumns[4].name == "gender"; }
      else if i == 4 { assert PatientColumns[5].name == "email"; }
      else if i == 5 { assert PatientColumns[6].name == "phone"; }
      else if i == 6 { assert PatientColumns[7].name == "address"; }
      else { assert PatientColumns[8].name == "medical_history"; }
    }
  }

  /**
    A mock insert appends exactly one record, numbered one past the old
    length, keeps every earlier record, maps `params[0..7]` onto the eight
    patient fields in order, stamps `created_at` from the clock, and returns
    the single row `{ id }` under the single column `id`.
   */
  lemma InsertAppendsOne(store: seq<Row>, text: string, params: seq<Value>, now: string)
    requires Classify(text) == Insert
    ensures var a := Step(store, text, params, now);
      && |a.store| == |store| + 1
      && a.store[..|store|] == store
      && Field(a.store[|store|], "id") == Num(|store| + 1)
      && Field(a.store[|store|], "created_at") == Str(now)
      && (forall i :: 0 <= i < 8 ==> Field(a.store[|store|], PatientColumns[i + 1].name) == Param(params, i))
      && a.result == QueryResult([map["id" := Num(|store| + 1)]], [Column("id")])
  {
    var r := NewRecord(|store| + 1, params, now);
    var a := Step(store, text, params, now);
    assert a.store == store + [r];
    assert a.store[..|store|] == store;
    NewRecordIsPositional(|store| + 1, params, now);
  }

  /**
    A mock `select * from patients` returns the whole store in insertion
    order under the fixed ten columns, whatever ORDER BY or LIMIT follows.
   */
  lemma SelectReturnsStore(store: seq<Row>, text: string, params: seq<Value>, now: string)
    requires Classify(text) == SelectAll
    ensures Step(store, text, params, now) == Answer(store, QueryResult(store, PatientColumns))
    ensures |PatientColumns| == 10
  {
  }

  /** Create-table and unrecognised statements change nothing and return no rows and no columns. */
  lemma OtherStatementsChangeNothing(store: seq<Row>, text: string, params: seq<Value>, now: string)
    requires Classify(text) == CreateTable || Classify(text) == Unrecognised
    ensures Step(store, text, params, now) == Answer(store, EmptyResult)
  {
  }

  /** The records are numbered 1, 2, 3, ... in insertion order. */
  predicate IdsSequential(store: seq<Row>) {
    forall i :: 0 <= i < |store| ==> Field(store[i], "id") == Num(i + 1)
  }

  /** Every mock statement keeps the store's ids numbered 1..n. */
  lemma StepKeepsIdsSequential(store: seq<Row>, text: string, params: seq<Value>, now: string)
    requires IdsSequential(store)
    ensures IdsSequential(Step(store, text, params, now).store)
  {
    var a := Step(store, text, params, now);
    if Classify(text) == Insert {
      InsertAppendsOne(store, text, params, now);
      forall i | 0 <= i < |a.store|
        ensures Field(a.store[i], "id") == Num(i + 1)
      {
        if i < |store| {
          assert a.store[i] == a.store[..|store|][i];
        }
      }
    } else {
      assert a.store == store;
    }
  }

  /** In a store numbered 1..n no two records share an id. */
  lemma SequentialIdsAreUnique(store: seq<Row>)
    requires IdsSequential(store)
    ensures forall i, j :: 0 <= i < j < |store| ==> Field(store[i], "id") != Field(store[j], "id")
  {
  }

  /**
    The id is the store's length plus one, not one past the largest id: a
    store hydrated from a snapshot whose only record has id 2 hands out id 2
    again.
   */
  lemma IdRepeatsAfterGap(text: string, params: seq<Value>, now: string)
    requires Classify(text) == Insert
    ensures var store := [map["id" := Num(2)]];
      var a := Step(store, text, params, now);
      Field(a.store[0], "id") == Field(a.store[1], "id")
  {
    InsertAppendsOne([map["id" := Num(2)]], text, params, now);
  }

  /** The phrase itself is an insert, so the statement above exists. */
  lemma InsertPhraseIsInsert()
    ensures Classify(InsertPhrase) == Insert
  {
    var a, b := "insert into ", "patients";
    assert InsertPhrase == a + b;
    assert Lower(a) == a;
    assert Lower(b) == b;
    LowerAppend(a, b);
    assert 'c' !in InsertPhrase;
    NotContainsMissing(InsertPhrase, CreateTablePhrase, 'c');
    ContainsAt(InsertPhrase, InsertPhrase, 0);
  }

  /** MockDB: the store is an instance field; localStorage is shared with the rest of the page. */
  class MockDB {
    var patients: seq<Row>
    const window: Window

    /** Hydrates the store from the snapshot slot; a missing or unparsable snapshot gives an empty store. */
    constructor (window: Window)
      ensures this.window == window
      ensures patients == Hydrate(window.slot)
    {
      this.window := window;
      patients := Hydrate(window.slot);
    }

    /**
      MockDB.query: never throws. The store and result are those of Step at
      the current clock reading; an insert also rewrites the snapshot unless
      storage refuses, and that refusal is swallowed.
     */
    method Query(text: string, params: seq<Value>) returns (r: QueryResult)
      modifies this, window`slot, window`effects
      ensures var a := Step(old(patients), text, params, window.now);
        patients == a.store && r == a.result
      ensures window.slot == if Classify(text) == Insert && !window.quotaExceeded
                             then Stored(JsonifyAll(patients)) else old(window.slot)
      ensures window.effects == old(window.effects) +
        if Classify(text) == Insert && !window.quotaExceeded then [Wrote(JsonifyAll(patients))] else []
    {
      var kind := Classify(text);
      if kind == CreateTable {
        return EmptyResult;
      }
      if kind == Insert {
        var id := |patients| + 1;
        patients := patients + [NewRecord(id, params, window.now)];
        SaveToLocalStorage();
        return QueryResult([map["id" := Num(id)]], [Column("id")]);
      }
      if kind == SelectAll {
        return QueryResult(patients, PatientColumns);
      }
      return EmptyResult;
    }

    /** Writes the whole store to the snapshot slot; a refused write is swallowed. */
    method SaveToLocalStorage()
      modifies window`slot, window`effects
      ensures window.slot == if window.quotaExceeded then old(window.slot) else Stored(JsonifyAll(patients))
      ensures window.effects == old(window.effects) + if window.quotaExceeded then [] else [Wrote(JsonifyAll(patients))]
    {
      var _ := window.SetSnapshot(patients);
    }
  }
}
