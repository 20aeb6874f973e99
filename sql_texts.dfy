/**
  The fixed statement texts of src/lib/db.ts and the substring rules that
  decide what the engines and the query wrapper do with a statement.
  Each long text is spelled as a concatenation of short pieces; the pieces
  are where the classification facts below cut it.
 */
module Sql {
  import opened JsText
  import opened Mock

  /** The primary engine's smoke test. */
  const SmokeTestSql := "SELECT 1"

  /** The schema statement run on every initialisation. */
  const SchemaSql := SchemaHead + SchemaBody

  const SchemaHead := "\n      CREATE TABLE"
  const SchemaBody :=
    " IF NOT EXISTS patients (\n"
    + "        id SERIAL PRIMARY KEY,\n"
    + "        first_name TEXT NOT NULL,\n"
    + "        last_name TEXT NOT NULL,\n"
    + "        date_of_birth DATE NOT NULL,\n"
    + "        gender TEXT NOT NULL,\n"
    + "        email TEXT,\n"
    + "        phone TEXT,\n"
    + "        address TEXT,\n"
    + "        medical_history TEXT,\n"
    + "        created_at TIMESTAMP DEFAULT CURRENT_TIMESTAMP\n"
    + "      );\n    "

  /** The insert the snapshot replay issues for each stored record. */
  const ReplaySql :=
    "INSERT INTO patients \n"
    + "              (first_name, last_name, date_of_birth, gender, email, phone, address, medical_history) \n"
    + "              VALUES \n"
    + "              ($1, $2, $3, $4, $5, $6, $7, $8)"

  /** The insert addPatient issues; the only `b` sits at the head of `birth`. */
  const InsertSql := InsertHead + "bi" + InsertTail

  const InsertHead := "INSERT INTO patients" + " \n      (first_name," + " last_name, date_of_"
  const InsertTail := InsertFields + InsertValues
  const InsertFields := "rth, gender, email, " + "phone, address, " + "medical_history) \n  "
  const InsertValues :=
    "    VALUES \n      (" + "$1, $2, $3, $4, $5, " + "$6, $7, $8)\n      " + "RETURNING id"

  /** The re-select executeQuery mirrors into the snapshot: no ORDER BY. */
  const MirrorSql := "SELECT *" + " FROM" + " patients"

  /** The statement getAllPatients issues. */
  const ListSql := "SELECT *" + " FROM" + " patients" + " ORDER BY" + " created_at DESC"

  const UpdatePhrase := "update patients"
  const DeletePhrase := "delete from patients"

  /**
    executeQuery's test for a statement that changes the patients table: the
    lower-cased (untrimmed) text includes an insert, update or delete phrase.
   */
  predicate IsMutating(text: string) {
    Contains(Lower(text), InsertPhrase) || Contains(Lower(text), UpdatePhrase)
    || Contains(Lower(text), DeletePhrase)
  }

  /** Whatever the mock engine treats as an insert, the wrapper treats as mutating. */
  lemma MockInsertIsMutating(text: string)
    requires Classify(text) == Insert
    ensures IsMutating(text)
  {
  }

  /** The mock engine runs the schema statement as a create-table statement. */
  lemma SchemaIsCreateTable()
    ensures Classify(SchemaSql) == CreateTable
  {
    SchemaHasCreateTable();
  }

  lemma SchemaHasCreateTable()
    ensures Contains(Lower(SchemaSql), CreateTablePhrase)
  {
    LowerAppend(SchemaHead, SchemaBody);
    LowerSchemaHead();
    ContainsInfix("\n      ", CreateTablePhrase, Lower(SchemaBody));
  }

  lemma LowerSchemaHead()
    ensures Lower(SchemaHead) == "\n      " + CreateTablePhrase
  {
  }

  lemma LowerInsertHead()
    ensures Lower(InsertHead) == InsertPhrase + Lower(" \n      (first_name," + " last_name, date_of_")
  {
    var i1, i2, i3 := "INSERT INTO patients", " \n      (first_name,", " last_name, date_of_";
    LowerAppend(i1, i2 + i3);
    assert InsertHead == i1 + (i2 + i3);
    assert Lower(i1) == InsertPhrase;
  }

  /** Neither `b` nor `B` occurs around the `bi` of `birth`. */
  lemma InsertLacksB()
    ensures 'b' !in Lower(InsertHead) && 'b' !in Lower(InsertTail)
  {
    HeadLacksB();
    TailLacksB();
  }

  lemma HeadLacksB()
    ensures 'b' !in Lower(InsertHead)
  {
    assert 'b' !in "INSERT INTO patients" && 'B' !in "INSERT INTO patients";
    assert 'b' !in " \n      (first_name," && 'B' !in " \n      (first_name,";
    assert 'b' !in " last_name, date_of_" && 'B' !in " last_name, date_of_";
    NotInLower(InsertHead, 'b');
  }

  lemma TailLacksB()
    ensures 'b' !in Lower(InsertTail)
  {
    TailLacksEitherB();
    assert ('b' as int - 32) as char == 'B';
    NotInLower(InsertTail, 'b');
  }

  lemma TailLacksEitherB()
    ensures 'b' !in InsertTail && 'B' !in InsertTail
  {
    FieldsLackEitherB();
    ValuesLackEitherB();
  }

  lemma FieldsLackEitherB()
    ensures 'b' !in InsertFields && 'B' !in InsertFields
  {
    var i5, i6, i7 := "rth, gender, email, ", "phone, address, ", "medical_history) \n  ";
    assert 'b' !in i5 && 'B' !in i5;
    assert 'b' !in i6 && 'B' !in i6;
    assert 'b' !in i7 && 'B' !in i7;
  }

  lemma ValuesLackEitherB()
    ensures 'b' !in InsertValues && 'B' !in InsertValues
  {
    var i8, i9, i10, i11 := "    VALUES \n      (", "$1, $2, $3, $4, $5, ", "$6, $7, $8)\n      ", "RETURNING id";
    assert 'b' !in i8 && 'B' !in i8;
    assert 'b' !in i9 && 'B' !in i9;
    assert 'b' !in i10 && 'B' !in i10;
    assert 'b' !in i11 && 'B' !in i11;
  }

  /** addPatient's statement is an insert to the mock engine and mutating to the wrapper. */
  lemma InsertSqlIsInsert()
    ensures Classify(InsertSql) == Insert
    ensures IsMutating(InsertSql)
  {
    InsertSqlLacksCreateTable();
    InsertSqlHasInsert();
  }

  lemma InsertSqlLacksCreateTable()
    ensures !Contains(Lower(InsertSql), CreateTablePhrase)
  {
    InsertLacksB();
    var lowHead, lowTail := Lower(InsertHead), Lower(InsertTail);
    LowerInsertSql();
    NotContainsMissing(lowHead, CreateTablePhrase, 'b');
    NotContainsMissing(lowTail, CreateTablePhrase, 'b');
    NotContainsShort("bi", CreateTablePhrase);
    ContainsSplit("bi", lowTail, CreateTablePhrase);
    ContainsSplit(lowHead, "bi" + lowTail, CreateTablePhrase);
  }

  lemma LowerInsertSql()
    ensures Lower(InsertSql) == Lower(InsertHead) + ("bi" + Lower(InsertTail))
  {
    LowerAppend(InsertHead, "bi" + InsertTail);
    LowerAppend("bi", InsertTail);
    assert Lower("bi") == "bi";
  }

  lemma InsertSqlHasInsert()
    ensures Contains(Lower(InsertSql), InsertPhrase)
  {
    LowerInsertHead();
    LowerInsertSql();
    var mid := Lower(" \n      (first_name," + " last_name, date_of_") + ("bi" + Lower(InsertTail));
    assert Lower(InsertSql) == [] + InsertPhrase + mid;
    ContainsInfix([], InsertPhrase, mid);
  }

  lemma LowerMirror()
    ensures Lower(MirrorSql) == "select *" + " from" + " patients"
  {
    LowerAppend("SELECT *" + " FROM", " patients");
    LowerAppend("SELECT *", " FROM");
    assert Lower("SELECT *") == "select *";
    assert Lower(" FROM") == " from";
    assert Lower(" patients") == " patients";
  }

  /** The mirror re-select is a select-all to the mock engine and not mutating to the wrapper. */
  lemma MirrorIsSelectAll()
    ensures Classify(MirrorSql) == SelectAll
    ensures !IsMutating(MirrorSql)
  {
    LowerMirror();
    assert Lower(MirrorSql) == SelectAllPhrase;
    PhraseLacksOthers();
    PhraseLacksInsert();
    ContainsInfix([], SelectAllPhrase, []);
    assert SelectAllPhrase == [] + SelectAllPhrase + [];
  }

  lemma PhraseLacksOthers()
    ensures !Contains(SelectAllPhrase, CreateTablePhrase)
    ensures !Contains(SelectAllPhrase, UpdatePhrase)
    ensures !Contains(SelectAllPhrase, DeletePhrase)
  {
    assert 'b' !in SelectAllPhrase && 'u' !in SelectAllPhrase && 'd' !in SelectAllPhrase;
    NotContainsMissing(SelectAllPhrase, CreateTablePhrase, 'b');
    NotContainsMissing(SelectAllPhrase, UpdatePhrase, 'u');
    NotContainsMissing(SelectAllPhrase, DeletePhrase, 'd');
  }

  lemma PhraseLacksInsert()
    ensures !Contains(SelectAllPhrase, InsertPhrase)
  {
    var a, b, c := "select *", " from", " patients";
    assert '*' !in InsertPhrase && 'm' !in InsertPhrase;
    NotContainsShortPieces(a, b, c, InsertPhrase);
    assert SelectAllPhrase == a + b + c;
  }

  lemma LowerList()
    ensures Lower(ListSql) == "select *" + " from" + " patients" + " order by" + " created_at desc"
  {
    LowerAppend(MirrorSql + " ORDER BY", " created_at DESC");
    LowerAppend(MirrorSql, " ORDER BY");
    LowerMirror();
    assert Lower(" ORDER BY") == " order by";
    assert Lower(" created_at DESC") == " created_at desc";
  }

  /** getAllPatients' statement is a select-all to the mock engine and not mutating to the wrapper. */
  lemma ListIsSelectAll()
    ensures Classify(ListSql) == SelectAll
    ensures !IsMutating(ListSql)
  {
    ListLowerFacts();
  }

  lemma ListLowerFacts()
    ensures !Contains(Lower(ListSql), CreateTablePhrase) && !Contains(Lower(ListSql), InsertPhrase)
    ensures !Contains(Lower(ListSql), UpdatePhrase) && !Contains(Lower(ListSql), DeletePhrase)
    ensures Contains(Lower(ListSql), SelectAllPhrase)
  {
    LowerList();
    var a, b, c, d, e := "select *", " from", " patients", " order by", " created_at desc";
    assert Lower(ListSql) == a + (b + c + d) + e;
    ListLacksCreateTable(a, b + c + d, e);
    ListLacksDelete(a, b + c + d, e);
    ListLacksUpdate(a, b + c + d, e);
    ListFrontFacts();
  }

  lemma ListFrontFacts()
    ensures !Contains(Lower(ListSql), InsertPhrase) && Contains(Lower(ListSql), SelectAllPhrase)
  {
    ListLacksInsertLower();
    ListHasSelectAll();
  }

  lemma ListLacksInsertLower()
    ensures !Contains(Lower(ListSql), InsertPhrase)
  {
    LowerList();
    var a, b, c, d, e := "select *", " from", " patients", " order by", " created_at desc";
    assert Lower(ListSql) == a + b + (c + d) + e;
    ListLacksInsert(a, b, c + d, e);
  }

  lemma ListHasSelectAll()
    ensures Contains(Lower(ListSql), SelectAllPhrase)
  {
    LowerList();
    var m := "select *" + " from" + " patients";
    var tail := " order by" + " created_at desc";
    assert m == SelectAllPhrase;
    assert Lower(ListSql) == m + tail;
    assert Lower(ListSql)[..|m|] == m;
  }

  lemma ListLacksCreateTable(a: string, b: string, e: string)
    requires a == "select *" && b == " from" + " patients" + " order by" && e == " created_at desc"
    ensures !Contains(a + b + e, CreateTablePhrase)
  {
    assert 'c' !in b && 'b' !in e;
    NotContainsShort(a, CreateTablePhrase);
    NotContainsMissing(b, CreateTablePhrase, 'c');
    NotContainsMissing(e, CreateTablePhrase, 'b');
    NotContainsThree(a, b, e, CreateTablePhrase);
  }

  lemma ListLacksDelete(a: string, b: string, e: string)
    requires a == "select *" && b == " from" + " patients" + " order by" && e == " created_at desc"
    ensures !Contains(a + b + e, DeletePhrase)
  {
    assert 'l' !in b && b[|b| - 1] == 'y';
    NotContainsThreeSplit(a, b, e, DeletePhrase, 'l');
  }

  lemma ListLacksUpdate(a: string, b: string, e: string)
    requires a == "select *" && b == " from" + " patients" + " order by" && e == " created_at desc"
    ensures !Contains(a + b + e, UpdatePhrase)
  {
    assert 'u' !in a && 'u' !in b && 'u' !in e;
    NotContainsMissing(a + b + e, UpdatePhrase, 'u');
  }

  lemma ListLacksInsert(a: string, b: string, c: string, e: string)
    requires a == "select *" && b == " from" && c == " patients" + " order by" && e == " created_at desc"
    ensures !Contains(a + b + c + e, InsertPhrase)
  {
    NotContainsShortPieces(b, c, e, InsertPhrase);
    NotContainsShort(a, InsertPhrase);
    ContainsSplit(a, b + c + e, InsertPhrase);
    assert a + b + c + e == a + (b + c + e);
  }
}
