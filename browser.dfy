/**
  The parts of the browser the data layer touches, as plain state:
  the `patient_data` slot of localStorage and the clock, plus one log, in
  the order they happen, of the writes to that slot, the messages posted on
  the `patient_db_channel` broadcast channel and the `db_updated` events
  dispatched on `window`.
 */
module Browser {
  import opened Records

  /**
    The snapshot slot as `JSON.parse` sees it: nothing stored, an array of
    records, or text that does not parse.
   */
  datatype Slot = Absent | Stored(rows: seq<Row>) | Corrupt

  /** `savedData ? JSON.parse(savedData) : []`, with a parse failure read as `[]`. */
  function Hydrate(s: Slot): seq<Row> {
    if s.Stored? then s.rows else []
  }

  /** Who caused a `db_updated` event: this tab (`current_tab`) or another (`other_tab`). */
  datatype Source = CurrentTab | OtherTab

  /** The `detail` of a `db_updated` event. */
  datatype DbUpdated = DbUpdated(source: Source, table: string)

  /** A message on the broadcast channel: `{ type, table }`. */
  datatype Message = Message(kind: string, table: string)

  const ChangeKind := "db_change"
  const PatientsTable := "patients"

  /** The message executeQuery posts after a mutating statement. */
  const ChangeMessage := Message(ChangeKind, PatientsTable)

  /** One observable effect of the data layer, in the order it happened. */
  datatype Effect =
    | Wrote(rows: seq<Row>)          // an accepted `setItem('patient_data', ...)`, with the rows as stored
    | Posted(message: Message)       // `channel.postMessage(message)`
    | Dispatched(event: DbUpdated)   // `window.dispatchEvent(new CustomEvent('db_updated', ...))`

  /** The error localStorage.setItem throws when it refuses a write. */
  const QuotaError := "QuotaExceededError"

  class Window {
    /** localStorage['patient_data']. */
    var slot: Slot
    /** Whether localStorage refuses writes (quota exhausted, storage disabled). */
    var quotaExceeded: bool
    /** `new Date().toISOString()` at this moment. */
    var now: string
    /** The accepted snapshot writes, posted messages and dispatched events, oldest first. */
    var effects: seq<Effect>

    constructor (slot: Slot, quotaExceeded: bool, now: string)
      ensures this.slot == slot && this.quotaExceeded == quotaExceeded && this.now == now
      ensures effects == []
    {
      this.slot := slot;
      this.quotaExceeded := quotaExceeded;
      this.now := now;
      effects := [];
    }

    /**
      `localStorage.setItem('patient_data', JSON.stringify(rows))`. It
      throws, and stores nothing, when storage refuses the write.
     */
    method SetSnapshot(rows: seq<Row>) returns (ok: bool)
      modifies this`slot, this`effects
      ensures ok == !quotaExceeded
      ensures slot == if ok then Stored(JsonifyAll(rows)) else old(slot)
      ensures effects == old(effects) + if ok then [Wrote(JsonifyAll(rows))] else []
    {
      ok := !quotaExceeded;
      if ok {
        slot := Stored(JsonifyAll(rows));
        effects := effects + [Wrote(JsonifyAll(rows))];
      }
    }

    /** `window.dispatchEvent(new CustomEvent('db_updated', { detail }))`. */
    method Dispatch(e: DbUpdated)
      modifies this`effects
      ensures effects == old(effects) + [Dispatched(e)]
    {
      effects := effects + [Dispatched(e)];
    }

    /** `channel.postMessage(m)`. */
    method Post(m: Message)
      modifies this`effects
      ensures effects == old(effects) + [Posted(m)]
    {
      effects := effects + [Posted(m)];
    }
  }

  /**
    Restarting reads back what was written: hydrating from a snapshot of
    `rows` yields as many records, each with the same value in every field.
    A slot with nothing in it, or with text that does not parse, yields no
    records at all.
   */
  lemma SnapshotRoundTrip(rows: seq<Row>)
    ensures Hydrate(Absent) == [] && Hydrate(Corrupt) == []
    ensures |Hydrate(Stored(JsonifyAll(rows)))| == |rows|
    ensures forall i, k :: 0 <= i < |rows| ==> Field(Hydrate(Stored(JsonifyAll(rows)))[i], k) == Field(rows[i], k)
  {
  }
}
