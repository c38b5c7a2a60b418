/**
 * sqliteDB.py: the LAST_STATUS table in which the last outcome is kept.
 *
 * The table is a sequence of rows in insertion order. Its schema declares no
 * key, so `INSERT OR IGNORE` never ignores, and `UPDATE ... WHERE ID=1`
 * rewrites every row whose ID is 1. Statements are built by pasting the
 * message and the timestamp between single quotes; a `'` in either one
 * breaks the statement, which then raises before changing anything.
 */
module SqliteDB {
  import opened Wrappers
  import opened Util

  /** A row of LAST_STATUS: ID, CODE, LAST_RESPONSE, TIMESTAMP. */
  datatype Row = Row(id: int, code: int, lastResponse: string, timestamp: string)

  /** The record `get_from_db` hands to the status endpoint. */
  datatype ApiResponse = ApiResponse(code: int, msg: string, timestamp: string)

  /** The exceptions the table operations raise. */
  datatype DbError =
    | SyntaxError   // a `'` inside the interpolated text broke the statement
    | NoSuchTable   // LAST_STATUS does not exist
    | IndexError    // `records[0]` on an empty result

  /** The text `str(e)` gives for each of them. */
  function ErrorText(e: DbError): string {
    match e
    case SyntaxError => "syntax error"
    case NoSuchTable => "no such table: LAST_STATUS"
    case IndexError => "list index out of range"
  }

  const InitializedMessage := "Initialized - waiting for first checks"

  /** `UPDATE LAST_STATUS SET ... WHERE ID=1`. */
  function Updated(rows: seq<Row>, code: int, msg: string, ts: string): (r: seq<Row>)
    ensures |r| == |rows|
  {
    seq(|rows|, i requires 0 <= i < |rows| =>
      if rows[i].id == 1 then Row(1, code, msg, ts) else rows[i])
  }

  /** The rows after a successful `update_db(code, msg, ts)`. */
  function Written(rows: seq<Row>, code: int, msg: string, ts: string): (r: seq<Row>)
    ensures |r| == |rows| + 1 && r[|rows|] == Row(1, code, msg, ts)
    ensures forall i :: 0 <= i < |rows| ==> r[i] == if rows[i].id == 1 then r[|rows|] else rows[i]
  {
    Updated(rows + [Row(1, code, msg, ts)], code, msg, ts)
  }

  /** Every row carries ID 1, as every row this module inserts does. */
  predicate KeyedOne(rows: seq<Row>) {
    forall i :: 0 <= i < |rows| ==> rows[i].id == 1
  }

  /**
   * A successful update adds one row and leaves every row of a table keyed
   * by 1 holding the new values.
   */
  lemma WrittenOverwritesAll(rows: seq<Row>, code: int, msg: string, ts: string)
    requires KeyedOne(rows)
    ensures |Written(rows, code, msg, ts)| == |rows| + 1
    ensures forall i :: 0 <= i < |rows| + 1 ==> Written(rows, code, msg, ts)[i] == Row(1, code, msg, ts)
  {
  }

  /** What `get_from_db` does with the table: raises, or returns the first row. */
  function Select(tableExists: bool, rows: seq<Row>): (r: Result<Option<ApiResponse>, DbError>)
    ensures r.Ok? ==> r.value.Some?
    ensures r.Err? <==> !tableExists || rows == []
  {
    if !tableExists then Err(NoSuchTable)
    else if rows == [] then Err(IndexError)
    else Ok(Some(ApiResponse(rows[0].code, rows[0].lastResponse, rows[0].timestamp)))
  }

  /** Round trip: what was last written is what is read back. */
  lemma WriteThenSelect(rows: seq<Row>, code: int, msg: string, ts: string)
    requires KeyedOne(rows)
    ensures Select(true, Written(rows, code, msg, ts)) == Ok(Some(ApiResponse(code, msg, ts)))
  {
    WrittenOverwritesAll(rows, code, msg, ts);
  }

  class OutcomeStore {
    /** Whether the database file has a LAST_STATUS table. */
    var tableExists: bool
    /** Its rows, in insertion order. */
    var rows: seq<Row>

    /** The database file as the process finds it. */
    constructor (tableExists: bool, rows: seq<Row>)
      ensures this.tableExists == tableExists && this.rows == rows
    {
      this.tableExists := tableExists;
      this.rows := rows;
    }

    /**
     * `update_db(code, msg, timestamp)`: INSERT OR IGNORE of (1, code, msg,
     * timestamp), then UPDATE of every row with ID 1. Both statements quote
     * msg and timestamp; a `'` in either raises before anything changes, as
     * does a missing table.
     */
    method UpdateDb(code: int, msg: string, ts: string) returns (err: Option<DbError>)
      modifies this
      ensures tableExists == old(tableExists)
      ensures err == (if !(NoQuote(msg) && NoQuote(ts)) then Some(SyntaxError)
                      else if !tableExists then Some(NoSuchTable)
                      else None)
      ensures err.None? ==> rows == Written(old(rows), code, msg, ts)
      ensures err.Some? ==> rows == old(rows)
      ensures KeyedOne(old(rows)) ==> KeyedOne(rows)
    {
      if !(NoQuote(msg) && NoQuote(ts)) {
        return Some(SyntaxError);
      }
      if !tableExists {
        return Some(NoSuchTable);
      }
      rows := rows + [Row(1, code, msg, ts)];
      rows := Updated(rows, code, msg, ts);
      err := None;
    }

    /**
     * `init_db`: DROP TABLE, CREATE TABLE, then (in `finally`) the sentinel
     * update. Whatever the file held, the table afterwards holds the sentinel
     * alone; it stays empty only if the timestamp breaks the update.
     */
    method InitDb(ts: string) returns (err: Option<DbError>)
      modifies this
      ensures tableExists
      ensures err == (if NoQuote(ts) then None else Some(SyntaxError))
      ensures err.None? ==> rows == [Row(1, 200, InitializedMessage, ts)]
      ensures err.Some? ==> rows == []
    {
      tableExists := false;
      rows := [];
      tableExists := true;
      err := UpdateDb(200, InitializedMessage, ts);
    }

    /**
     * `get_from_db`: SELECT *, then `records[0]`, which raises on an empty
     * table before the emptiness test that would return None.
     */
    method GetFromDb() returns (r: Result<Option<ApiResponse>, DbError>)
      ensures !tableExists ==> r == Err(NoSuchTable)
      ensures tableExists && rows == [] ==> r == Err(IndexError)
      ensures tableExists && rows != [] ==>
        r == Ok(Some(ApiResponse(rows[0].code, rows[0].lastResponse, rows[0].timestamp)))
      ensures r != Ok(None)
    {
      if !tableExists {
        return Err(NoSuchTable);
      }
      var records := rows;
      if records == [] {
        return Err(IndexError);
      }
      var row := records[0];
      r := Ok(Some(ApiResponse(row.code, row.lastResponse, row.timestamp)));
    }
  }

  /** Calling init_db twice leaves one row: the second call's sentinel. */
  method InitTwice(store: OutcomeStore, ts1: string, ts2: string)
    requires NoQuote(ts2)
    modifies store
    ensures store.tableExists && store.rows == [Row(1, 200, InitializedMessage, ts2)]
  {
    var _ := store.InitDb(ts1);
    var _ := store.InitDb(ts2);
  }

  /**
   * Round trip through the class: after init_db and an update whose text is
   * quote-free, the table has two rows, both holding the update, and
   * get_from_db returns it.
   */
  method UpdateThenRead(store: OutcomeStore, ts0: string, code: int, msg: string, ts: string)
      returns (r: Result<Option<ApiResponse>, DbError>)
    requires NoQuote(ts0) && NoQuote(msg) && NoQuote(ts)
    modifies store
    ensures |store.rows| == 2 && forall row :: row in store.rows ==> row == Row(1, code, msg, ts)
    ensures r == Ok(Some(ApiResponse(code, msg, ts)))
  {
    var _ := store.InitDb(ts0);
    var _ := store.UpdateDb(code, msg, ts);
    WrittenOverwritesAll([Row(1, 200, InitializedMessage, ts0)], code, msg, ts);
    r := store.GetFromDb();
  }
}
