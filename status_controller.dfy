/**
 * statusController.py: the `/status` endpoint, which serves the record
 * `get_from_db` returns as JSON, with the record's code as the HTTP status.
 */
module StatusController {
  import opened Wrappers
  import SqliteDB

  /** The JSON values the endpoint builds before `json.dumps`. */
  datatype Json =
    | JInt(i: int)
    | JStr(s: string)
    | JObject(members: seq<(string, Json)>)

  /** The reply Flask sends: a status and a JSON body, or its generic 500 page when the handler raises. */
  datatype HttpReply = HttpReply(status: int, body: Json) | InternalServerError

  const NotFoundText := "Cannot find response " + "record. Maybe too soon?!"

  /** `dataclasses.asdict(resp)`, in field order. */
  function RecordJson(a: SqliteDB.ApiResponse): Json {
    JObject([("code", JInt(a.code)), ("msg", JStr(a.msg)), ("timestamp", JStr(a.timestamp))])
  }

  /** `{"Response": respDict}`. */
  function Body(respDict: Json): Json {
    JObject([("Response", respDict)])
  }

  /**
   * The decision of `get_status` for the record it was handed: 400 with the
   * error text for None, otherwise the record under "Response" with its
   * code as the status (`abort` with the code when it is not 200, a plain
   * 200 reply when it is).
   */
  function StatusReply(resp: Option<SqliteDB.ApiResponse>): (r: HttpReply)
    ensures r.HttpReply?
    ensures resp.None? ==> r == HttpReply(400, Body(JObject([("Error", JStr(NotFoundText))])))
    ensures resp.Some? ==> r.status == resp.value.code && r.body == Body(RecordJson(resp.value))
  {
    var respDict := if resp.Some? then RecordJson(resp.value) else JObject([("Error", JStr(NotFoundText))]);
    var jsonResponse := Body(respDict);
    if resp.None? then HttpReply(400, jsonResponse)
    else if resp.value.code != 200 then HttpReply(resp.value.code, jsonResponse)
    else HttpReply(200, jsonResponse)
  }

  /** What the endpoint sends for what `get_from_db` did: an exception becomes Flask's 500 page. */
  function Served(fetched: Result<Option<SqliteDB.ApiResponse>, SqliteDB.DbError>): (r: HttpReply)
    ensures r.HttpReply? <==> fetched.Ok?
    ensures fetched.Ok? && fetched.value.Some? ==> r.status == fetched.value.value.code
  {
    match fetched
    case Err(_) => InternalServerError
    case Ok(resp) => StatusReply(resp)
  }

  /** `get_status()`. */
  method GetStatus(store: SqliteDB.OutcomeStore) returns (reply: HttpReply)
    ensures reply == Served(SqliteDB.Select(store.tableExists, store.rows))
  {
    var fetched := store.GetFromDb();
    reply := Served(fetched);
  }

  /**
   * The 400 "Maybe too soon?!" reply is never sent: `get_from_db` raises on
   * an empty table instead of returning None, so the client sees a 500.
   */
  lemma NoBadRequestBody(tableExists: bool, rows: seq<SqliteDB.Row>)
    ensures Served(SqliteDB.Select(tableExists, rows)) != HttpReply(400, Body(JObject([("Error", JStr(NotFoundText))])))
    ensures rows == [] ==> Served(SqliteDB.Select(tableExists, rows)) == InternalServerError
  {
  }

  /**
   * After a successful update_db(code, msg, ts) the endpoint serves that
   * record, with code as the HTTP status.
   */
  lemma ServesLastWrite(rows: seq<SqliteDB.Row>, code: int, msg: string, ts: string)
    requires SqliteDB.KeyedOne(rows)
    ensures Served(SqliteDB.Select(true, SqliteDB.Written(rows, code, msg, ts))) ==
      HttpReply(code, Body(JObject([("code", JInt(code)), ("msg", JStr(msg)), ("timestamp", JStr(ts))])))
  {
    SqliteDB.WriteThenSelect(rows, code, msg, ts);
  }
}
