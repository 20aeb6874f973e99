# Patient registry data layer, in Dafny

This project models the browser-side data layer of a small patient registry,
and the two pieces of the user interface that compute over its results.

The data layer (`src/lib/db.ts`) has these parts:
- It picks one engine at start-up: the embedded PGlite engine if it can be
  built and answers `SELECT 1`, otherwise MockDB, an in-memory table that
  recognises three statement shapes by substring.
- It creates the schema. On PGlite it replays the `patient_data` snapshot
  from localStorage.
- It wraps every statement. After a statement that mentions
  `insert into patients`, `update patients` or `delete from patients`, it
  re-selects the table, overwrites the snapshot, posts a `db_change` message
  on the `patient_db_channel` broadcast channel and dispatches a
  `db_updated` event on the window.

The UI pieces are:
- the search filter and five-per-page paging of the patient list
  (`src/components/PatientList.tsx`);
- the SELECT-only gate and result display of the SQL console
  (`src/components/SqlQueryInterface.tsx`).

Layout:
- `js_text.dfy` (`JsText`): the JavaScript string operations the code
  relies on. `trim`, `toLowerCase`, `includes`, `startsWith` and `String(n)`.
- `records.dfy` (`Records`): values, rows, query results, statements, and
  the `Result`/`Option` wrappers. It also holds the `|| ''` defaulting and
  what a JSON round trip does to a record.
- `browser.dfy` (`Browser`): the snapshot slot of localStorage, channel
  messages and `db_updated` events. Class `Window` holds them as mutable
  state: a slot and one ordered log of snapshot writes, posted messages and
  dispatched events.
- `mock_db.dfy` (`Mock`): MockDB.
  - `Classify` and `Step` are the pure rules.
  - Class `MockDB` is the object that mutates its store and writes the slot.
- `sql_texts.dfy` (`Sql`): the fixed statement texts of the data layer, the
  mutating-statement test, and how each text is classified.
- `db_spec.dfy` (`DbSpec`): the data layer as a state machine. It runs over
  the module globals `db`, `isInitialized`, `usingMockDB` and `channel`,
  plus the page state it touches. Every exported operation is a function
  from a state to a new state and a result.
- `db_properties.dfy` (`DbProperties`): what the data layer promises,
  proved over `DbSpec`.
- `db.dfy` (`Db`): class `Database` holds the module globals and runs the
  same operations step by step. It is proved to agree with `DbSpec`.
  PGlite is class `PGlite`, an oracle that records the statements it ran.
- `patient_list.dfy` (`PatientList`): the filter and the paging functions.
  Class `ListView` is the component state that the effect and the buttons
  update.
- `sql_console.dfy` (`SqlConsole`): the gate, the column and cell rules, and
  class `QueryConsole`, whose `RunQuery` updates `isLoading`, `error` and
  `results`.

Behaviours of the code a reader might not expect, which the model keeps:
- The mirror re-select has no `ORDER BY`.
- On MockDB the patient list comes back in insertion order, not newest first.
- A refused snapshot write makes `executeQuery` reject, and skips both
  notifications. It is not merely logged.
- The replay on PGlite stops at the first record that fails. It does not
  skip that record.
- A MockDB id is the store's length plus one. It need not exceed every
  earlier id.
- On MockDB an `update patients` or `delete from patients` statement
  changes nothing, yet still rewrites the snapshot and notifies.

## Model

| member | source | states |
|---|---|---|
| JsText.TrimLowerCommute | src/components/SqlQueryInterface.tsx:24 | trimming and lower-casing commute, so `trim().toLowerCase()` equals `toLowerCase().trim()` |
| JsText.TrimIgnoresSurroundingSpace | src/components/SqlQueryInterface.tsx:24 | white space added before and after a text does not change its `trim()` |
| JsText.ContainsIff | src/lib/db.ts:37-66 | the recursive `includes` holds exactly when some position of the text starts the pattern |
| JsText.ContainsTrim | src/lib/db.ts:34-66 | a pattern with no white space at either end occurs in `s.trim()` exactly when it occurs in `s` |
| Records.OrEmpty | src/lib/db.ts:275-278 | `v \|\| ''` returns a truthy value unchanged and turns every falsy one into `''`, so the result is never null or undefined |
| Records.Jsonify | src/lib/db.ts:90 | a JSON round trip keeps every field's value and drops only the keys whose value is `undefined` |
| Records.JsonifyAllIdempotent | src/lib/db.ts:230 | serialising a snapshot that was already parsed changes nothing |
| Browser.SnapshotRoundTrip | src/lib/db.ts:19-27 | hydrating a written snapshot gives as many records as were written, each with the same value in every field; a missing or unparsable snapshot hydrates to the empty store |
| Browser.Window.SetSnapshot | src/lib/db.ts:90 | `setItem` succeeds exactly when storage accepts writes, and then stores the serialised rows and logs one write of them; otherwise the slot and the log are unchanged |
| Browser.Window.Dispatch | src/lib/db.ts:239-241 | dispatching appends exactly one entry, the event, to the effect log |
| Browser.Window.Post | src/lib/db.ts:235 | posting appends exactly one entry, the message, to the effect log |
| Mock.Classify | src/lib/db.ts:34-85 | the first of `create table`, `insert into patients`, `select * from patients` in the lower-cased text decides the branch; trimming never changes the outcome |
| Mock.NewRecordIsPositional | src/lib/db.ts:45-52 | parameter `i` lands in column `i + 1` of the fixed column list, for each of the eight fields |
| Mock.InsertAppendsOne | src/lib/db.ts:42-62 | an insert appends exactly one record numbered length + 1, keeps every earlier record, and returns the single row `{ id }` under the column `id` |
| Mock.SelectReturnsStore | src/lib/db.ts:65-82 | a select returns the whole store in insertion order under the ten fixed columns, whatever ORDER BY or LIMIT follows |
| Mock.OtherStatementsChangeNothing | src/lib/db.ts:36-85 | create-table statements (lines 36-39) and unrecognised ones (the default branch, lines 84-85) leave the store and return no rows and no columns |
| Mock.StepKeepsIdsSequential | src/lib/db.ts:44 | every statement keeps the store's ids numbered 1..n |
| Mock.SequentialIdsAreUnique | src/lib/db.ts:44 | a store numbered 1..n has no two records with the same id |
| Mock.IdRepeatsAfterGap | src/lib/db.ts:44 | a store hydrated with a single record of id 2 hands out id 2 again on the next insert |
| Mock.InsertPhraseIsInsert | src/lib/db.ts:42 | the bare phrase `insert into patients` is classified as an insert |
| Mock.MockDB.constructor | src/lib/db.ts:17-28 | the store starts as the hydrated snapshot |
| Mock.MockDB.Query | src/lib/db.ts:30-86 | the new store and the result are those of `Step` at the current clock; an insert also rewrites the slot and logs that write, unless storage refuses |
| Mock.MockDB.SaveToLocalStorage | src/lib/db.ts:88-94 | the whole store is written to the slot and the write logged; a refused write leaves both and does not throw |
| Sql.MockInsertIsMutating | src/lib/db.ts:223-225 | whatever MockDB treats as an insert, the wrapper treats as mutating |
| Sql.SchemaIsCreateTable | src/lib/db.ts:144-157 | MockDB treats the schema statement as create-table, so it ignores it |
| Sql.InsertSqlIsInsert | src/lib/db.ts:264-269 | the statement of `addPatient` is an insert to MockDB and mutating to the wrapper |
| Sql.MirrorIsSelectAll | src/lib/db.ts:227 | the mirror re-select is a select-all to MockDB and is not mutating |
| Sql.ListIsSelectAll | src/lib/db.ts:294 | the statement of `getAllPatients` is a select-all to MockDB and is not mutating |
| DbSpec.Run | src/lib/db.ts:220 | a statement changes only the engine, the slot and the effect log; PGlite logs it and leaves the slot and the effect log; MockDB never rejects |
| DbSpec.ReplayRows | src/lib/db.ts:170-187 | the replay changes only the engine's log and adds at most one statement per record |
| DbSpec.ReplayedStatements | src/lib/db.ts:170-187 | what the replay adds to the log is the insert statements of a prefix of the records, in order |
| DbSpec.Initialize | src/lib/db.ts:106-202 | success leaves an initialised engine and returns it; failure leaves `db` null and `isInitialized` false |
| DbProperties.StartIsConsistent | src/lib/db.ts:98-103 | the globals at page load satisfy the invariant |
| DbProperties.InitializeTwice | src/lib/db.ts:107 | once initialisation has succeeded, calling it again changes nothing and returns the same engine |
| DbProperties.InitializeWhenReady | src/lib/db.ts:107-109 | on every initialised page, `initializeDB` returns the held engine and changes nothing |
| DbProperties.GetDBIsInitialize | src/lib/db.ts:205-210 | `getDB` and `initializeDB` agree in every state |
| DbProperties.InitializeFallsBack | src/lib/db.ts:121-128 | when PGlite fails, initialisation succeeds on a MockDB hydrated from the slot, with `usingMockDB` set; no replay runs and nothing is written or sent |
| DbProperties.InitializeOnPrimary | src/lib/db.ts:113-120 | on PGlite, the engine has run `SELECT 1`, the schema and then the replay inserts of a prefix of the snapshot; nothing else of the page changed |
| DbProperties.InitializeFailsExactly | src/lib/db.ts:195-201 | initialisation rejects exactly when BroadcastChannel is missing or PGlite rejects the schema; a rejection leaves `db` null and `isInitialized` false |
| DbProperties.ReplayStopsAtFirstFailure | src/lib/db.ts:170-191 | every replayed record before the last one succeeded, and a replay that stopped early stopped at a failing record |
| DbProperties.InitializeKeepsConsistent | src/lib/db.ts:106-202 | initialisation keeps the invariant between the globals |
| DbProperties.ExecuteKeepsConsistent | src/lib/db.ts:213-250 | `executeQuery` keeps the invariant |
| DbProperties.ChannelMessageKeepsConsistent | src/lib/db.ts:134-141 | the channel handler keeps the invariant |
| DbProperties.NonMutatingHasNoEffects | src/lib/db.ts:223-242 | a non-mutating statement, on an initialised page or one that must initialise first, leaves the slot and adds nothing to the effect log: no write, no message, no event |
| DbProperties.MockMutatingEffects | src/lib/db.ts:223-241 | on MockDB a mutating statement returns MockDB's answer and stores the new store as the snapshot; the effect log gains exactly, in order, MockDB's own write (inserts only), the wrapper's write, the `db_change` message and one `current_tab` event |
| DbProperties.MirrorOnMock | src/lib/db.ts:227 | on MockDB the re-select answers with the whole store under the ten columns and changes nothing |
| DbProperties.MockInsertEffects | src/lib/db.ts:223-241 | on MockDB an insert adds exactly four entries to the effect log: the same snapshot written twice, then the message, then the `current_tab` event |
| DbProperties.MockUpdateStillNotifies | src/lib/db.ts:223-241 | on MockDB an update or delete changes no record yet still rewrites the snapshot, then posts and dispatches, exactly those three effects in order |
| DbProperties.PrimaryMutatingEffects | src/lib/db.ts:220-241 | on PGlite a mutating statement is followed by the unordered re-select; its rows become the snapshot, and the effect log gains exactly that write, then the message, then the `current_tab` event |
| DbProperties.QuotaExceededSkipsNotifications | src/lib/db.ts:213-249 | when storage refuses writes, a mutating statement rejects, whether or not the page was initialised, the slot keeps its old content and the effect log is unchanged: neither message nor event goes out |
| DbProperties.RejectionHasNoEffects | src/lib/db.ts:213-249 | whatever makes `executeQuery` reject (initialisation, the statement, the re-select or the snapshot write), the slot is unchanged and nothing is written, posted or dispatched |
| DbProperties.WrapRejectionHasNoEffects | src/lib/db.ts:220-244 | once an engine is held, a rejected statement, re-select or snapshot write leaves the slot and the effect log as they were |
| DbProperties.OrEmptyProp | src/lib/db.ts:275-278 | an absent optional field is sent as `''`, a present one as itself |
| DbProperties.AddPatientOnMock | src/lib/db.ts:253-289 | on MockDB `addPatient` appends one record with the input's fields (absent optional ones as `''`) and the next id, returns `{ id }`; the snapshot is written twice (MockDB, then the wrapper), then the message and the event go out |
| DbProperties.GetAllPatientsOnMock | src/lib/db.ts:292-304 | on MockDB `getAllPatients` returns the whole store in insertion order and changes nothing |
| DbProperties.AddThenListOnMock | src/lib/db.ts:253-304 | a patient added and the list read back: earlier records in place, the new record last with the input's eight fields, the next id and the clock, the list being exactly the store |
| DbProperties.ChannelMessageEffect | src/lib/db.ts:131-141 | once the channel is open, a `db_change` message adds exactly one `other_tab` event naming its table and nothing else; any other message, or any message before the channel exists, changes nothing |
| DbProperties.RestartRestoresStore | src/lib/db.ts:17-28 | after a mutating statement on MockDB, a MockDB hydrated afresh from the slot holds the live store, field for field, when storage accepted the write; when it refused, the slot is what it was |
| Db.PGlite.Query | src/lib/db.ts:220 | the oracle answers from the statements already run and logs the new one |
| Db.Database.constructor | src/lib/db.ts:97-103 | the globals at page load |
| Db.Database.RunOn | src/lib/db.ts:220 | running a statement on the engine held has the effect and result `DbSpec.Run` describes |
| Db.Database.InitializeDB | src/lib/db.ts:106-202 | the new globals and the result are `DbSpec.Initialize` of the old ones; the invariant is kept |
| Db.Database.Reinitialize | src/lib/db.ts:109-194 | past the early return, the same as `DbSpec.Initialize` |
| Db.Database.SelectEngine | src/lib/db.ts:112-128 | the engine chosen and `usingMockDB` are `DbSpec.SelectEngine` of the old state |
| Db.Database.PrepareSelected | src/lib/db.ts:143-201 | the schema step, `isInitialized`, the PGlite-only replay, and on failure `db` null and `isInitialized` false |
| Db.Database.ReplaySnapshot | src/lib/db.ts:163-192 | the loop of inserts ends in the state `DbSpec.ReplaySnapshot` describes, stopping at the first rejected insert |
| Db.Database.GetDB | src/lib/db.ts:205-210 | the result and new globals are `DbSpec.GetDB` of the old ones |
| Db.Database.ExecuteQuery | src/lib/db.ts:213-250 | the result and the new page state are `DbSpec.ExecuteQuery` of the old ones |
| Db.Database.Wrap | src/lib/db.ts:220-244 | run, then publish a successful mutating statement, as `DbSpec.Wrap` |
| Db.Database.Publish | src/lib/db.ts:226-241 | the re-select, the snapshot and the notifications, as `DbSpec.Publish` |
| Db.Database.Save | src/lib/db.ts:230-241 | a refused write rejects with storage's error; otherwise the snapshot is stored, then the notifications go out |
| Db.Database.Notify | src/lib/db.ts:233-241 | the effect log gains, in order, the change message if a channel exists, then exactly one `current_tab` event, and nothing else |
| Db.Database.AddPatient | src/lib/db.ts:253-289 | the result and new state are `DbSpec.AddPatient` of the old ones |
| Db.Database.GetAllPatients | src/lib/db.ts:292-304 | the rows of the list statement, or its error, as `DbSpec.GetAllPatients` |
| Db.Database.OnChannelMessage | src/lib/db.ts:131-141 | the new page state is `DbSpec.OnChannelMessage` of the old one: nothing happens before the channel is open |
| PatientList.Keep | src/components/PatientList.tsx:63-68 | every matching record is kept as often as it occurs and every other one dropped, in the original order |
| PatientList.FilterSelectsMatches | src/components/PatientList.tsx:59-72 | a blank term shows the whole list; any other term keeps exactly the matching records; either way a subsequence of the list |
| PatientList.CaseMattersOnlyForPhone | src/components/PatientList.tsx:64-67 | terms equal up to case select the same records, unless a phone number contains one of them |
| PatientList.TotalPages | src/components/PatientList.tsx:75 | the fewest pages of five that hold all records |
| PatientList.SliceIndex | src/components/PatientList.tsx:78 | a slice index is clamped to the list; a negative one counts from the end, and one still negative after that becomes 0 |
| PatientList.PageBounds | src/components/PatientList.tsx:76-78 | page `p` holds records `(p-1)*5` up to `p*5`, clipped to the list, so at most five |
| PatientList.PageNonEmptyIffInRange | src/components/PatientList.tsx:75-78 | a page is non-empty exactly when it is among the first `totalPages` |
| PatientList.PagesConcatenate | src/components/PatientList.tsx:75-78 | pages `1..totalPages` laid end to end are the filtered list itself |
| PatientList.PagingStaysInRange | src/components/PatientList.tsx:153-164 | Previous and Next stay in `1..totalPages`, move by one when not at an end, and undo each other |
| PatientList.ListView.constructor | src/components/PatientList.tsx:23-27 | the first render: nothing loaded, loading, an empty term, page 1 |
| PatientList.ListView.CurrentPatients | src/components/PatientList.tsx:78 | at most five rows shown, and some whenever the filtered list has any |
| PatientList.ListView.Refilter | src/components/PatientList.tsx:59-72 | the filtered list becomes the filter of the full list by the term, and the page returns to 1 |
| PatientList.ListView.BeginLoad | src/components/PatientList.tsx:32 | loading starts |
| PatientList.ListView.LoadFinished | src/components/PatientList.tsx:33-41 | loaded rows replace the list, are filtered by the current term and reset the page; a failure keeps what was shown; loading ends either way |
| PatientList.ListView.SearchChanged | src/components/PatientList.tsx:59-72 | a new term refilters and resets the page; the same term changes nothing |
| PatientList.ListView.ClickPrevious | src/components/PatientList.tsx:108-157 | with the list loaded, the controls shown and not on page 1, the page becomes `max(p-1, 1)`; otherwise it stays; the view invariant holds |
| PatientList.ListView.ClickNext | src/components/PatientList.tsx:108-167 | with the list loaded, the controls shown and not on the last page, the page becomes `min(p+1, totalPages)`; otherwise it stays |
| SqlConsole.GateIgnoresCase | src/components/SqlQueryInterface.tsx:24-25 | a query and its lower-cased form are admitted alike |
| SqlConsole.GateIgnoresSurroundingSpace | src/components/SqlQueryInterface.tsx:24-25 | white space around a query does not change whether it is admitted |
| SqlConsole.GateChecksOnlyThePrefix | src/components/SqlQueryInterface.tsx:24-25 | any text whose first six characters spell `select` in any case is admitted, whatever follows |
| SqlConsole.DefaultQueryAdmitted | src/components/SqlQueryInterface.tsx:13 | the box's initial text passes the gate |
| SqlConsole.InsertPassesGate | src/components/SqlQueryInterface.tsx:24-29 | `select insert into patients` passes the gate, and MockDB runs it as an insert |
| SqlConsole.ConsoleInsertOnMock | src/components/SqlQueryInterface.tsx:29 | on MockDB that statement, admitted by the console, appends a record; the snapshot is written twice, then the message and the event go out |
| SqlConsole.ColumnNames | src/components/SqlQueryInterface.tsx:35 | the column names, in order and as many as the columns |
| SqlConsole.CellText | src/components/SqlQueryInterface.tsx:114 | a cell shows `'null'` for null, `'undefined'` for a missing column, and `String(value)` in general |
| SqlConsole.QueryConsole.constructor | src/components/SqlQueryInterface.tsx:13-16 | the default query, no results, not loading, no error |
| SqlConsole.QueryConsole.Edit | src/components/SqlQueryInterface.tsx:69 | the query becomes the typed text |
| SqlConsole.QueryConsole.RunQuery | src/components/SqlQueryInterface.tsx:18-50 | rejected text sets the select-only error and leaves the data layer untouched; admitted text runs through `executeQuery`; success shows the columns and rows; failure shows the message and keeps the old results; loading ends |
| SqlConsole.QueryConsole.Submit | src/components/SqlQueryInterface.tsx:29-49 | the part after the gate: the data layer moves as `DbSpec.ExecuteQuery`, and results or error are set from its outcome |

## Left out

- PGlite itself is an oracle. On each construction attempt it is either
  unavailable or answers each statement from the statements it already ran,
  in the `{ rows, columns }` shape. SQL semantics and PGlite's real result
  shape are not part of this model.
- localStorage, BroadcastChannel and window events are plain state: a slot
  and one ordered log of snapshot writes, posted messages and dispatched
  events. Delivery to other tabs is not modelled. The
  handler is a method that receives a message.
- JSON: the snapshot slot is absent, a stored array of flat records, or
  unparsable text. JSON that parses to something other than an array is not
  modelled.
- Records.Value: numbers are integers only. Floating point is left out.
- JsText.Lower: lower-cases ASCII letters only. Unicode case mapping is
  left out.
- PatientList.Matches: an email or phone that is present but not a string
  is treated as no match. The component would throw a TypeError there.
- The clock is an opaque string read from the window. It is fixed during
  one call.
- Concurrency is left out. The module-load `initializeDB` call
  (src/lib/db.ts:307-311) and later calls are each one atomic, sequential
  call. So are overlapping queries and cross-tab last-writer-wins races.
- Db.Database.OnChannelMessage: the model has at most one open channel. The
  source opens a new BroadcastChannel on each retry of a failed
  initialisation without closing the old one. Such a page would dispatch one
  event per open channel. Its own `postMessage` (src/lib/db.ts:235) would
  also reach its still-open earlier channel, so the tab would get an
  `other_tab` event for its own write.
- The `if (!database)` test of `executeQuery` (src/lib/db.ts:216-218) is
  not modelled: `getDB` never resolves to null. The same holds for the
  `rows` guards at src/lib/db.ts:229 and 295-298: every result carries rows.
- SqlConsole.QueryConsole.RunQuery: every failure carries a message, so the
  'Unknown error occurred' fallback is not modelled. The loading render
  during the call and the disabled Run button are not modelled either.
- The `db_updated` listener that reloads the patient list
  (src/components/PatientList.tsx:44-57) is not wired: `BeginLoad` and
  `LoadFinished` are the two halves of `loadPatients`, called by whoever
  drives the component.
- Toasts, console logging, `formatDate` and all JSX rendering are left out.
- The registration form's required-field rule is not imposed on
  `addPatient`, which accepts any input, as the data layer does.
