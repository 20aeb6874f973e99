/**
  The values that flow through the data layer: statement parameters, result
  rows and stored patient records, as JavaScript sees them.
 */
module Records {
  import opened JsText

  /** A JSON-compatible JavaScript scalar. Numbers are integers here. */
  datatype Value = Undefined | Null | Bool(b: bool) | Num(n: int) | Str(s: string)

  /** A result row or a stored patient record: field name to value. */
  type Row = map<string, Value>

  /** `row[key]`: a key the object lacks reads as `undefined`. */
  function Field(r: Row, k: string): Value {
    if k in r then r[k] else Undefined
  }

  /** `params[i]`: reading past the end of the array gives `undefined`. */
  function Param(ps: seq<Value>, i: nat): Value {
    if i < |ps| then ps[i] else Undefined
  }

  /** The falsy values among these scalars. */
  predicate Falsy(v: Value) {
    v == Undefined || v == Null || v == Bool(false) || v == Num(0) || v == Str("")
  }

  /** `v || ''`: every falsy value becomes the empty string, anything else is kept. */
  function OrEmpty(v: Value): (r: Value)
    ensures r == v || r == Str("")
    ensures !Falsy(v) ==> r == v
    ensures !Falsy(r) || r == Str("")
    ensures r != Undefined && r != Null
  {
    if Falsy(v) then Str("") else v
  }

  /** `String(v)`, which is also what a template literal inserts. */
  function JsString(v: Value): string {
    match v
    case Undefined => "undefined"
    case Null => "null"
    case Bool(b) => if b then "true" else "false"
    case Num(n) => IntToString(n)
    case Str(s) => s
  }

  /**
    `JSON.parse(JSON.stringify(r))` for a flat record: the keys whose value
    is `undefined` disappear, everything else comes back as it was.
   */
  function Jsonify(r: Row): (j: Row)
    ensures forall k :: Field(j, k) == Field(r, k)
    ensures forall k :: k in j ==> j[k] != Undefined
    ensures j.Keys <= r.Keys
  {
    map k | k in r && r[k] != Undefined :: r[k]
  }

  /** `JSON.parse(JSON.stringify(rows))` for an array of flat records. */
  function JsonifyAll(rows: seq<Row>): (js: seq<Row>)
    ensures |js| == |rows|
    ensures forall i :: 0 <= i < |rows| ==> js[i] == Jsonify(rows[i])
  {
    seq(|rows|, i requires 0 <= i < |rows| => Jsonify(rows[i]))
  }

  /** Serialising what was already parsed changes nothing. */
  lemma JsonifyAllIdempotent(rows: seq<Row>)
    ensures JsonifyAll(JsonifyAll(rows)) == JsonifyAll(rows)
  {
    forall i | 0 <= i < |rows| ensures Jsonify(Jsonify(rows[i])) == Jsonify(rows[i]) {
      var r := rows[i];
      assert Jsonify(Jsonify(r)).Keys == Jsonify(r).Keys;
    }
  }

  /** `{ name }` of `QueryResult.columns`. */
  datatype Column = Column(name: string)

  /** The shape every engine returns: rows and the ordered column list. */
  datatype QueryResult = QueryResult(rows: seq<Row>, columns: seq<Column>)

  const EmptyResult := QueryResult([], [])

  /** A statement text with its positional parameters. */
  datatype Statement = Statement(text: string, params: seq<Value>)

  /** The value of an `async` call that resolves, or the message of the error it throws. */
  datatype Result<T> = Success(value: T) | Failure(error: string)

  datatype Option<T> = None | Some(value: T)
}
