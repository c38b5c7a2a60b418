/**
 * main.py: the scan request and how its outcome is recorded
 * (`runPostRequest`), the last-days-of-the-month gate
 * (`mainLastDayOfMonth`), and the cron jobs `main` registers.
 *
 * The network is a parameter: `answer(k)` is what the k-th request of a
 * call gets back, a response with a status code and a body, a timeout, or
 * any other exception with its text. The clock is a parameter too: the
 * timestamp string taken once before the requests, and for the jobs a local
 * time given as its calendar fields.
 */
module Main {
  import opened Wrappers
  import opened Util
  import opened Yaml
  import opened Calendar
  import SqliteDB
  import ConfigInit

  // ---------------------------------------------------------------------------
  // Requests and replies (main.py:10-68)
  // ---------------------------------------------------------------------------

  /** What `requests.post` does: return a response, or raise. */
  datatype Reply =
    | Response(statusCode: int, text: string)
    | Timeout
    | Failure(description: string)

  /** A response kept in `responses`, with the URL of its request. */
  datatype Resp = Resp(url: string, code: int, text: string)

  /** The exception that leaves the try block of `runPostRequest`. */
  datatype ScanError = TimedOut | Failed(text: string)

  /** The state of the folder loop: URLs posted, responses kept, and the exception that stopped it. */
  datatype Scan = Scan(posted: seq<string>, responses: seq<Resp>, raised: Option<ScanError>)

  const NoScan := Scan([], [], None)

  /** What the try block decides: the outcome to write, or an exception. */
  datatype Decision = Record(code: int, msg: string) | Raise(error: ScanError)

  /** `f"{config.url}/rest/db/scan"`. */
  function ScanUrl(c: ConfigInit.ConfValue): string {
    Render(c.url) + "/rest/db/scan"
  }

  /** `f"{urlToScan}/?folder={folder}"`. */
  function FolderUrl(base: string, folder: string): string {
    base + "/?folder=" + folder
  }

  /** `url.split("=")[-1]`: the text after the last `=`, or all of it. */
  function FolderId(url: string): string {
    if url == [] then ""
    else if url[|url| - 1] == '=' then ""
    else FolderId(url[..|url| - 1]) + [url[|url| - 1]]
  }

  /** The id is the longest suffix of the URL without `=`: the text after the last `=`, or all of it. */
  lemma {:induction false} FolderIdIsLastField(url: string)
    ensures '=' !in FolderId(url)
    ensures |FolderId(url)| <= |url| && FolderId(url) == url[|url| - |FolderId(url)|..]
    ensures |FolderId(url)| < |url| ==> url[|url| - |FolderId(url)| - 1] == '='
  {
    if url != [] && url[|url| - 1] != '=' {
      var init := url[..|url| - 1];
      FolderIdIsLastField(init);
      var r := FolderId(init);
      assert FolderId(url) == r + [url[|url| - 1]];
      assert url[|url| - |r| - 1..] == init[|init| - |r|..] + [url[|url| - 1]];
      if |r| < |init| {
        assert url[|url| - |r| - 2] == init[|init| - |r| - 1];
      }
    }
  }

  // The messages, written in short pieces.
  const ScheduledTime := " See you at the next " + "scheduled time. ;)"
  const AllSuccess := "SUCCESS: Successfully " + "scanned all folders " + "(backup will commence " +
    "now)!" + ScheduledTime
  const TimeoutMessage := "ERROR: Timeout has " + "occurred while calling " + "scanning folder(s)! " +
    "Please run the scan " + "manually!"

  function AllFailedMessage(code: int, text: string): string {
    "ERROR: While scanning " + "all folders. Code = " + Decimal(code) + " with error message = " + text +
    "! Please rescan it " + "manually!"
  }

  function FailedMessage(ids: seq<string>): string {
    "ERROR: while scanning " + "multiple folders " + Repr(List(seq(|ids|, i requires 0 <= i < |ids| => Str(ids[i])))) +
    ": Please rescan them " + "manually!"
  }

  function SelectedSuccess(folders: Value): string {
    "SUCCESS: Successfully " + "scanned all selected " + "folders: " + Render(folders) +
    ". (Backup will commence " + "now)!" + ScheduledTime
  }

  function ExceptionMessage(text: string): string {
    "ERROR: " + text + " has occurred while " + "calling folders to scan! " + "Please run the scan " + "manually!"
  }

  /** `str(TypeError)` for `for folder in v` over a value that is not iterable. */
  function NotIterable(v: Value): string {
    "'" + TypeName(v) + "' object is not iterable"
  }

  /** One `requests.post`: the URL is posted, then the reply is kept or raised. */
  function Post(s: Scan, url: string, reply: Reply): Scan {
    match reply
    case Response(code, text) => s.(posted := s.posted + [url], responses := s.responses + [Resp(url, code, text)])
    case Timeout => s.(posted := s.posted + [url], raised := Some(TimedOut))
    case Failure(d) => s.(posted := s.posted + [url], raised := Some(Failed(d)))
  }

  /** The folder loop of main.py:35-37 from item k on, the k-th request getting `answer(k)`. */
  function PostFolders(base: string, items: seq<string>, answer: nat -> Reply, k: nat, s: Scan): Scan
    decreases |items| - k
  {
    if k >= |items| || s.raised.Some? then s
    else PostFolders(base, items, answer, k + 1, Post(s, FolderUrl(base, items[k]), answer(k)))
  }

  predicate Failing(r: Resp) {
    r.code != 200
  }

  predicate AnyFailed(rs: seq<Resp>) {
    exists i :: 0 <= i < |rs| && Failing(rs[i])
  }

  /** The id of each response's request, `res.request.url.split("=")[-1]`. */
  function Ids(rs: seq<Resp>): (ids: seq<string>)
    ensures |ids| == |rs| && forall k :: 0 <= k < |rs| ==> ids[k] == FolderId(rs[k].url)
  {
    seq(|rs|, k requires 0 <= k < |rs| => FolderId(rs[k].url))
  }

  /** The ids of the responses in `onlyFailed`, in order (main.py:42-44). */
  function FailedIds(rs: seq<Resp>): seq<string> {
    Ids(Filter(rs, Failing))
  }

  /** The try block of `runPostRequest`, up to the write it ends with. */
  function TryBody(c: ConfigInit.ConfValue, answer: nat -> Reply): (r: Decision)
    ensures r.Record? ==> NoQuote(r.msg)
    ensures r.Record? && c.allFolders != Some(true) ==> r.code == 200 || r.code == 500
    ensures r.Record? && c.allFolders == Some(true) ==> answer(0).Response? && r.code == answer(0).statusCode
  {
    ConstantsQuoteFree();
    if c.allFolders == Some(true) then
      match answer(0)
      case Timeout => Raise(TimedOut)
      case Failure(d) => Raise(Failed(d))
      case Response(code, text) =>
        if code == 200 then Record(200, AllSuccess) else Record(code, FixString(AllFailedMessage(code, text)))
    else
      match IterationItems(c.foldersToScan)
      case None => Raise(Failed(NotIterable(c.foldersToScan)))
      case Some(items) =>
        var s := PostFolders(ScanUrl(c), items, answer, 0, NoScan);
        if s.raised.Some? then Raise(s.raised.value)
        else if AnyFailed(s.responses) then Record(500, FixString(FailedMessage(FailedIds(s.responses))))
        else Record(200, FixString(SelectedSuccess(c.foldersToScan)))
  }

  /** The URLs `runPostRequest` posts, in order. */
  function Requests(c: ConfigInit.ConfValue, answer: nat -> Reply): seq<string> {
    if c.allFolders == Some(true) then [ScanUrl(c)]
    else
      match IterationItems(c.foldersToScan)
      case None => []
      case Some(items) => PostFolders(ScanUrl(c), items, answer, 0, NoScan).posted
  }

  /** The fixed messages can be written as they are. */
  lemma ConstantsQuoteFree()
    ensures NoQuote(AllSuccess) && NoQuote(TimeoutMessage)
  {
    ScheduledQuoteFree();
    TimeoutQuoteFree();
  }

  lemma ScheduledQuoteFree()
    ensures NoQuote(ScheduledTime)
  {
  }

  lemma TimeoutQuoteFree()
    ensures NoQuote(TimeoutMessage)
  {
  }

  /** The two handlers (main.py:58-67). */
  function Handled(e: ScanError): (r: (int, string))
    ensures e == TimedOut ==> r == (408, TimeoutMessage)
    ensures e.Failed? ==> r == (500, FixString(ExceptionMessage(e.text)))
    ensures NoQuote(r.1)
  {
    match e
    case TimedOut =>
      ConstantsQuoteFree();
      (408, TimeoutMessage)
    case Failed(text) => (500, FixString(ExceptionMessage(text)))
  }

  /**
   * The (code, msg) `runPostRequest` leaves in the store when the store
   * accepts the write. The message never holds a `'`, so only the timestamp
   * or a missing table can make that write fail.
   */
  function Stored(c: ConfigInit.ConfValue, answer: nat -> Reply): (r: (int, string))
    ensures NoQuote(r.1)
  {
    match TryBody(c, answer)
    case Record(code, msg) => (code, msg)
    case Raise(e) => Handled(e)
  }

  // ---------------------------------------------------------------------------
  // Properties of runPostRequest
  // ---------------------------------------------------------------------------

  /** All-folders mode: one request, then its status code decides (main.py:16-29). */
  lemma AllFoldersOutcome(c: ConfigInit.ConfValue, answer: nat -> Reply)
    requires c.allFolders == Some(true)
    ensures Requests(c, answer) == [ScanUrl(c)]
    ensures answer(0).Response? && answer(0).statusCode == 200 ==> Stored(c, answer) == (200, AllSuccess)
    ensures answer(0).Response? && answer(0).statusCode != 200 ==>
      Stored(c, answer) == (answer(0).statusCode, FixString(AllFailedMessage(answer(0).statusCode, answer(0).text)))
    ensures answer(0) == Timeout ==> Stored(c, answer) == (408, TimeoutMessage)
    ensures answer(0).Failure? ==> Stored(c, answer) == (500, FixString(ExceptionMessage(answer(0).description)))
  {
  }

  /** The loop state after the first n requests all got responses. */
  function Prefix(base: string, items: seq<string>, answer: nat -> Reply, n: nat): (s: Scan)
    requires n <= |items|
    requires forall j :: 0 <= j < n ==> answer(j).Response?
  {
    Scan(seq(n, j requires 0 <= j < n => FolderUrl(base, items[j])),
         seq(n, j requires 0 <= j < n => Resp(FolderUrl(base, items[j]), answer(j).statusCode, answer(j).text)),
         None)
  }

  /** Running the loop from the start is running it from item n on the state after n responses. */
  lemma {:induction false} PostFoldersPrefix(base: string, items: seq<string>, answer: nat -> Reply, n: nat)
    requires n <= |items|
    requires forall j :: 0 <= j < n ==> answer(j).Response?
    ensures PostFolders(base, items, answer, 0, NoScan) == PostFolders(base, items, answer, n, Prefix(base, items, answer, n))
  {
    if n == 0 {
      assert Prefix(base, items, answer, 0) == NoScan;
    } else {
      PostFoldersPrefix(base, items, answer, n - 1);
      var p := Prefix(base, items, answer, n - 1);
      var url := FolderUrl(base, items[n - 1]);
      assert Post(p, url, answer(n - 1)) == Prefix(base, items, answer, n);
    }
  }

  /**
   * Every folder request is issued before any status code is looked at:
   * when no reply raises, one URL per item is posted, in item order, and
   * the kept responses are the replies in that order (main.py:35-39).
   */
  lemma AllRequestsIssued(base: string, items: seq<string>, answer: nat -> Reply)
    requires forall j :: 0 <= j < |items| ==> answer(j).Response?
    ensures PostFolders(base, items, answer, 0, NoScan) == Prefix(base, items, answer, |items|)
    ensures |PostFolders(base, items, answer, 0, NoScan).posted| == |items|
    ensures PostFolders(base, items, answer, 0, NoScan).raised.None?
  {
    PostFoldersPrefix(base, items, answer, |items|);
  }

  /**
   * The first reply that raises ends the loop: the URLs up to and including
   * its request were posted, and the exception is that reply's.
   */
  lemma FirstRaiseStops(base: string, items: seq<string>, answer: nat -> Reply, n: nat)
    requires n < |items|
    requires forall j :: 0 <= j < n ==> answer(j).Response?
    requires !answer(n).Response?
    ensures PostFolders(base, items, answer, 0, NoScan).posted == Prefix(base, items, answer, n).posted + [FolderUrl(base, items[n])]
    ensures PostFolders(base, items, answer, 0, NoScan).raised ==
      Some(if answer(n).Timeout? then TimedOut else Failed(answer(n).description))
  {
    PostFoldersPrefix(base, items, answer, n);
  }

  /** A timeout on any folder request, after responses to the ones before it, records 408 (main.py:58-61). */
  lemma TimeoutRecords408(c: ConfigInit.ConfValue, answer: nat -> Reply, n: nat)
    requires c.allFolders != Some(true) && IterationItems(c.foldersToScan).Some?
    requires n < |IterationItems(c.foldersToScan).value|
    requires forall j :: 0 <= j < n ==> answer(j).Response?
    requires answer(n) == Timeout
    ensures Stored(c, answer) == (408, TimeoutMessage)
    ensures |Requests(c, answer)| == n + 1
  {
    FirstRaiseStops(ScanUrl(c), IterationItems(c.foldersToScan).value, answer, n);
  }

  /**
   * Any other exception on a folder request, after responses to the ones
   * before it, records 500 with the exception's text (main.py:63-67).
   */
  lemma FailureRecords500(c: ConfigInit.ConfValue, answer: nat -> Reply, n: nat)
    requires c.allFolders != Some(true) && IterationItems(c.foldersToScan).Some?
    requires n < |IterationItems(c.foldersToScan).value|
    requires forall j :: 0 <= j < n ==> answer(j).Response?
    requires answer(n).Failure?
    ensures Stored(c, answer) == (500, FixString(ExceptionMessage(answer(n).description)))
    ensures |Requests(c, answer)| == n + 1
  {
    FirstRaiseStops(ScanUrl(c), IterationItems(c.foldersToScan).value, answer, n);
  }

  /**
   * Folder mode over a `foldersToScan` that cannot be iterated: nothing is
   * posted, and the TypeError is recorded as 500 (main.py:35, 63-67).
   */
  lemma NotIterableRecords500(c: ConfigInit.ConfValue, answer: nat -> Reply)
    requires c.allFolders != Some(true) && IterationItems(c.foldersToScan).None?
    ensures Requests(c, answer) == []
    ensures Stored(c, answer) == (500, FixString(ExceptionMessage(NotIterable(c.foldersToScan))))
  {
  }

  /**
   * Folder mode with every reply a response: 500 and the failed folders
   * when some code is not 200, else 200 and the configured folders
   * (main.py:39-56).
   */
  lemma FolderModeOutcome(c: ConfigInit.ConfValue, answer: nat -> Reply)
    requires c.allFolders != Some(true) && IterationItems(c.foldersToScan).Some?
    requires forall j :: 0 <= j < |IterationItems(c.foldersToScan).value| ==> answer(j).Response?
    ensures var items := IterationItems(c.foldersToScan).value;
            var rs := Prefix(ScanUrl(c), items, answer, |items|).responses;
            && Requests(c, answer) == seq(|items|, j requires 0 <= j < |items| => FolderUrl(ScanUrl(c), items[j]))
            && (AnyFailed(rs) ==> Stored(c, answer) == (500, FixString(FailedMessage(FailedIds(rs)))))
            && (!AnyFailed(rs) ==> Stored(c, answer) == (200, FixString(SelectedSuccess(c.foldersToScan))))
  {
    AllRequestsIssued(ScanUrl(c), IterationItems(c.foldersToScan).value, answer);
  }

  /**
   * FailedIds lists exactly the ids of the failed responses, in request
   * order: idx picks out, in increasing order, the positions of the
   * responses that are not 200, each id is the one of the response at its
   * position, and no failed response is missed.
   */
  lemma FailedIdsExact(rs: seq<Resp>) returns (idx: seq<nat>)
    ensures |idx| == |FailedIds(rs)|
    ensures forall k, l :: 0 <= k < l < |idx| ==> idx[k] < idx[l]
    ensures forall k :: 0 <= k < |idx| ==>
      idx[k] < |rs| && rs[idx[k]].code != 200 && FailedIds(rs)[k] == FolderId(rs[idx[k]].url)
    ensures forall j :: 0 <= j < |rs| && rs[j].code != 200 ==> j in idx
  {
    idx := FilterPicks(rs, Failing);
    FilterKept(rs, Failing);
    var failed := Filter(rs, Failing);
    forall k | 0 <= k < |idx|
      ensures idx[k] < |rs| && rs[idx[k]].code != 200 && FailedIds(rs)[k] == FolderId(rs[idx[k]].url)
    {
      assert failed[k] == rs[idx[k]] && Failing(failed[k]);
    }
    forall j | 0 <= j < |rs| && rs[j].code != 200
      ensures j in idx
    {
      assert Failing(rs[j]);
    }
  }

  /** Text after an `=` decides the id alone. */
  lemma {:induction false} FolderIdAfterEquals(p: string, f: string)
    requires p != [] && p[|p| - 1] == '='
    ensures FolderId(p + f) == FolderId(f)
    decreases |f|
  {
    if f == [] {
      assert p + f == p;
    } else {
      var init := f[..|f| - 1];
      assert (p + f)[..|p + f| - 1] == p + init;
      assert (p + f)[|p + f| - 1] == f[|f| - 1];
      FolderIdAfterEquals(p, init);
    }
  }

  /** Text without `=` is its own id. */
  lemma FolderIdWithoutEquals(f: string)
    requires '=' !in f
    ensures FolderId(f) == f
  {
    FolderIdIsLastField(f);
  }

  /**
   * The id read back from a folder's request URL is the folder name itself
   * when it holds no `=`, and otherwise the part after its last `=`.
   */
  lemma FolderIdOfFolderUrl(base: string, folder: string)
    ensures FolderId(FolderUrl(base, folder)) == FolderId(folder)
    ensures '=' !in folder ==> FolderId(FolderUrl(base, folder)) == folder
  {
    var p := base + "/?folder=";
    assert p[|p| - 1] == '=';
    assert FolderUrl(base, folder) == p + folder;
    FolderIdAfterEquals(p, folder);
    if '=' !in folder {
      FolderIdWithoutEquals(folder);
    }
  }

  // ---------------------------------------------------------------------------
  // runPostRequest as the source runs it
  // ---------------------------------------------------------------------------

  /** The loop of main.py:35-37: one request per folder, stopped by the first exception. */
  method PostEach(urlToScan: string, items: seq<string>, answer: nat -> Reply)
      returns (posted: seq<string>, responses: seq<Resp>, raised: Option<ScanError>)
    ensures Scan(posted, responses, raised) == PostFolders(urlToScan, items, answer, 0, NoScan)
  {
    posted, responses, raised := [], [], None;
    var i := 0;
    while i < |items| && raised.None?
      invariant 0 <= i <= |items|
      invariant PostFolders(urlToScan, items, answer, i, Scan(posted, responses, raised)) ==
                PostFolders(urlToScan, items, answer, 0, NoScan)
    {
      var folderToScan := urlToScan + "/?folder=" + items[i];
      posted := posted + [folderToScan];
      match answer(i) {
        case Timeout => raised := Some(TimedOut);
        case Failure(d) => raised := Some(Failed(d));
        case Response(status, text) => responses := responses + [Resp(folderToScan, status, text)];
      }
      i := i + 1;
    }
  }

  /** The loop of main.py:43-44 over `onlyFailed`, the responses that are not 200. */
  method CollectFailed(responses: seq<Resp>) returns (failedFolders: seq<string>)
    ensures failedFolders == FailedIds(responses)
  {
    var onlyFailed := Filter(responses, Failing);
    failedFolders := [];
    var j := 0;
    while j < |onlyFailed|
      invariant 0 <= j <= |onlyFailed|
      invariant |failedFolders| == j
      invariant forall k :: 0 <= k < j ==> failedFolders[k] == FolderId(onlyFailed[k].url)
    {
      failedFolders := failedFolders + [FolderId(onlyFailed[j].url)];
      j := j + 1;
    }
  }

  /** The try block of `runPostRequest` up to its write: the requests, then the outcome or the exception. */
  method TryScan(c: ConfigInit.ConfValue, answer: nat -> Reply) returns (posted: seq<string>, decision: Decision)
    ensures posted == Requests(c, answer)
    ensures decision == TryBody(c, answer)
  {
    var urlToScan := Render(c.url) + "/rest/db/scan";
    if c.allFolders == Some(true) {
      posted := [urlToScan];
      match answer(0) {
        case Timeout => decision := Raise(TimedOut);
        case Failure(d) => decision := Raise(Failed(d));
        case Response(status, text) =>
          if status == 200 {
            decision := Record(200, AllSuccess);
          } else {
            decision := Record(status, FixString(AllFailedMessage(status, text)));
          }
      }
    } else {
      var folders := IterationItems(c.foldersToScan);
      if folders.None? {
        posted := [];
        decision := Raise(Failed(NotIterable(c.foldersToScan)));
      } else {
        var responses, raised;
        posted, responses, raised := PostEach(urlToScan, folders.value, answer);
        if raised.Some? {
          decision := Raise(raised.value);
        } else if AnyFailed(responses) {
          var failedFolders := CollectFailed(responses);
          decision := Record(500, FixString(FailedMessage(failedFolders)));
        } else {
          decision := Record(200, FixString(SelectedSuccess(c.foldersToScan)));
        }
      }
    }
  }

  /**
   * `runPostRequest(config)`: posts, decides, and makes one successful
   * write, always with the one timestamp `ts`. When the try block's write
   * fails, the handler's write fails for the same reason and the sqlite
   * error escapes.
   */
  method RunPostRequest(store: SqliteDB.OutcomeStore, c: ConfigInit.ConfValue, answer: nat -> Reply, ts: string)
      returns (posted: seq<string>, escaped: Option<SqliteDB.DbError>)
    modifies store
    ensures posted == Requests(c, answer)
    ensures store.tableExists == old(store.tableExists)
    ensures escaped == (if !NoQuote(ts) then Some(SqliteDB.SyntaxError)
                        else if !store.tableExists then Some(SqliteDB.NoSuchTable)
                        else None)
    ensures escaped.None? ==> store.rows == SqliteDB.Written(old(store.rows), Stored(c, answer).0, Stored(c, answer).1, ts)
    ensures escaped.Some? ==> store.rows == old(store.rows)
  {
    var decision;
    posted, decision := TryScan(c, answer);
    var error: ScanError;
    ConstantsQuoteFree();
    match decision {
      case Record(code, msg) =>
        escaped := store.UpdateDb(code, msg, ts);
        if escaped.None? {
          return;
        }
        error := Failed(SqliteDB.ErrorText(escaped.value));
      case Raise(e) =>
        error := e;
    }
    match error {
      case TimedOut => escaped := store.UpdateDb(408, TimeoutMessage, ts);
      case Failed(text) => escaped := store.UpdateDb(500, FixString(ExceptionMessage(text)), ts);
    }
  }

  // ---------------------------------------------------------------------------
  // The jobs (main.py:71-108)
  // ---------------------------------------------------------------------------

  /** A local time as the scheduler sees it in the configured zone. */
  datatype LocalTime = LocalTime(year: int, month: int, day: int, weekday: int, hour: int, minute: int)

  predicate ValidTime(t: LocalTime) {
    ValidDate(t.year, t.month, t.day) && t.weekday == Weekday(t.year, t.month, t.day)
    && 0 <= t.hour < 24 && 0 <= t.minute < 60
  }

  /** The gate of `mainLastDayOfMonth`: one of the last seven days of the month. */
  predicate LastDayGate(t: LocalTime)
    requires ValidMonth(t.month)
    ensures t.day == DaysInMonth(t.year, t.month) ==> LastDayGate(t)
    ensures t.day <= 21 ==> !LastDayGate(t)
  {
    DaysInMonth(t.year, t.month) - 7 < t.day
  }

  /** What a job calls when it fires. */
  datatype Action = ScanNow | CheckLastDays

  /** A cron trigger with `day='*'` and `month='*'`; `dayOfWeek` None is `'*'`. */
  datatype Job = Job(action: Action, hour: nat, minute: nat, dayOfWeek: Option<nat>)

  /** The day-of-week names a cron trigger accepts, Monday first. */
  const CronDays: seq<string> := ["mon", "tue", "wed", "thu", "fri", "sat", "sun"]

  /** The weekday a cron `day_of_week` name stands for. */
  function CronWeekday(name: string): (r: Option<nat>)
    ensures r.Some? ==> r.value < 7 && CronDays[r.value] == name
    ensures r.None? <==> name !in CronDays
  {
    if name == "mon" then Some(0) else if name == "tue" then Some(1)
    else if name == "wed" then Some(2) else if name == "thu" then Some(3)
    else if name == "fri" then Some(4) else if name == "sat" then Some(5)
    else if name == "sun" then Some(6) else None
  }

  /** Whether the cron trigger fires at t. */
  predicate Fires(j: Job, t: LocalTime) {
    t.hour == j.hour && t.minute == j.minute && (j.dayOfWeek.None? || j.dayOfWeek.value == t.weekday)
  }

  /** Whether firing at t leads to `startMainProcess`. */
  predicate Starts(j: Job, t: LocalTime)
    requires ValidTime(t)
  {
    Fires(j, t) && (j.action == ScanNow || LastDayGate(t))
  }

  function DailyJob(s: ConfigInit.ConfSchedule): Job
    requires s.hour.Some? && s.minute.Some?
  {
    Job(ScanNow, s.hour.value, s.minute.value, None)
  }

  /**
   * A day that is no cron name would make `dayOfWeek` None here; the walk
   * stores only valid days, and CronDayOfName shows each of them names
   * its weekday, so a registered job never has that form.
   */
  function WeeklyJob(s: ConfigInit.ConfSchedule): Job
    requires s.hour.Some? && s.minute.Some? && s.day.Some?
  {
    Job(ScanNow, s.hour.value, s.minute.value, CronWeekday(Lower(s.day.value)))
  }

  /** As for WeeklyJob, a stored day always names its weekday. */
  function LastDayJob(s: ConfigInit.ConfSchedule): Job
    requires s.hour.Some? && s.minute.Some? && s.day.Some?
  {
    Job(CheckLastDays, s.hour.value, s.minute.value, CronWeekday(Lower(s.day.value)))
  }

  /** The jobs `main` adds, in order, one for each schedule that is set. */
  function RegisteredJobs(c: ConfigInit.ConfValue): (jobs: seq<Job>)
    requires ConfigInit.Ready(c)
    ensures |jobs| == (if c.dailySchedule.Some? then 1 else 0) + (if c.weeklySchedule.Some? then 1 else 0)
                      + (if c.lastDayOfMonthSchedule.Some? then 1 else 0)
  {
    (if c.dailySchedule.Some? then [DailyJob(c.dailySchedule.value)] else [])
    + (if c.weeklySchedule.Some? then [WeeklyJob(c.weeklySchedule.value)] else [])
    + (if c.lastDayOfMonthSchedule.Some? then [LastDayJob(c.lastDayOfMonthSchedule.value)] else [])
  }

  /** The cron name of a configured day: its lower-case form, whatever case the file used. */
  lemma CronDayOfName(d: string, w: nat)
    requires w < 7 && Upper(d) == ConfigInit.DayNames[w]
    ensures CronWeekday(Lower(d)) == Some(w)
  {
    LowerOfUpper(d);
    assert Lower(ConfigInit.DayNames[w]) == CronDays[w];
  }

  /** ASCII lower-casing forgets an earlier upper-casing. */
  lemma {:induction false} LowerOfUpper(s: string)
    ensures Lower(Upper(s)) == Lower(s)
  {
    if s != [] {
      LowerOfUpper(s[1..]);
      assert Upper(s) == [UpperChar(s[0])] + Upper(s[1..]);
      assert Lower(Upper(s)) == [LowerChar(UpperChar(s[0]))] + Lower(Upper(s[1..]));
      assert Lower(s) == [LowerChar(s[0])] + Lower(s[1..]);
    }
  }

  /** The daily job starts a scan at its hour and minute on every day, and at no other time. */
  lemma DailyJobDue(s: ConfigInit.ConfSchedule, t: LocalTime)
    requires s.hour.Some? && s.minute.Some? && ValidTime(t)
    ensures Starts(DailyJob(s), t) <==> t.hour == s.hour.value && t.minute == s.minute.value
  {
  }

  /** The weekly job starts a scan at its time on the configured weekday only. */
  lemma WeeklyJobDue(s: ConfigInit.ConfSchedule, t: LocalTime)
    requires ConfigInit.WellFormedSchedule(ConfigInit.Weekly, s) && ConfigInit.HasTimeAndDay(s)
    requires ValidTime(t)
    ensures Starts(WeeklyJob(s), t) <==>
      t.hour == s.hour.value && t.minute == s.minute.value && ConfigInit.DayNames[t.weekday] == s.day.value
  {
    var w :| 0 <= w < 7 && ConfigInit.DayNames[w] == s.day.value;
    ConfigInit.UpperOfDayName(w);
    CronDayOfName(s.day.value, w);
  }

  /**
   * The last-day job starts a scan at its time on the configured weekday
   * when that day is one of the last seven of the month.
   */
  lemma LastDayJobDue(s: ConfigInit.ConfSchedule, t: LocalTime)
    requires ConfigInit.WellFormedSchedule(ConfigInit.LastDayOfMonth, s) && ConfigInit.HasTimeAndDay(s)
    requires ValidTime(t)
    ensures Starts(LastDayJob(s), t) <==>
      && t.hour == s.hour.value && t.minute == s.minute.value
      && ConfigInit.DayNames[t.weekday] == Upper(s.day.value)
      && DaysInMonth(t.year, t.month) - 7 < t.day
  {
    var w :| 0 <= w < 7 && ConfigInit.DayNames[w] == Upper(s.day.value);
    CronDayOfName(s.day.value, w);
  }

  /** A schedule's hour and minute are those of t. */
  predicate At(s: ConfigInit.ConfSchedule, t: LocalTime)
    requires s.hour.Some? && s.minute.Some?
  {
    t.hour == s.hour.value && t.minute == s.minute.value
  }

  /**
   * Whether a schedule of c is due at t: the daily one at its time, the
   * weekly one at its time on its day, the last-day-of-month one at its
   * time on its day when that is one of the last seven of the month.
   */
  predicate Due(c: ConfigInit.ConfValue, t: LocalTime)
    requires ConfigInit.Ready(c) && ValidTime(t)
  {
    || (c.dailySchedule.Some? && At(c.dailySchedule.value, t))
    || (c.weeklySchedule.Some? && At(c.weeklySchedule.value, t)
        && ConfigInit.DayNames[t.weekday] == c.weeklySchedule.value.day.value)
    || (c.lastDayOfMonthSchedule.Some? && At(c.lastDayOfMonthSchedule.value, t)
        && ConfigInit.DayNames[t.weekday] == Upper(c.lastDayOfMonthSchedule.value.day.value)
        && DaysInMonth(t.year, t.month) - 7 < t.day)
  }

  /** Some registered job starts a scan at t exactly when a configured schedule is due at t. */
  lemma RegisteredJobsDue(c: ConfigInit.ConfValue, t: LocalTime)
    requires ConfigInit.Ready(c) && ValidTime(t)
    ensures (exists j :: j in RegisteredJobs(c) && Starts(j, t)) <==> Due(c, t)
  {
    var jobs := RegisteredJobs(c);
    if c.dailySchedule.Some? {
      DailyJobDue(c.dailySchedule.value, t);
      assert DailyJob(c.dailySchedule.value) in jobs;
    }
    if c.weeklySchedule.Some? {
      WeeklyJobDue(c.weeklySchedule.value, t);
      assert WeeklyJob(c.weeklySchedule.value) in jobs;
    }
    if c.lastDayOfMonthSchedule.Some? {
      LastDayJobDue(c.lastDayOfMonthSchedule.value, t);
      assert LastDayJob(c.lastDayOfMonthSchedule.value) in jobs;
    }
  }

  /** Whether job j starts a scan on date (y, m, d), at the time of day it names. */
  predicate ScansOn(j: Job, y: int, m: int, d: int)
    requires j.hour < 24 && j.minute < 60
  {
    ValidDate(y, m, d) && Starts(j, LocalTime(y, m, d, Weekday(y, m, d), j.hour, j.minute))
  }

  /**
   * The gate and the weekday filter together admit exactly one day of
   * every month: the seven-day window holds each weekday once.
   */
  lemma LastDayJobOncePerMonth(s: ConfigInit.ConfSchedule, y: int, m: int)
    requires ConfigInit.WellFormedSchedule(ConfigInit.LastDayOfMonth, s) && ConfigInit.HasTimeAndDay(s)
    requires y >= 1 && ValidMonth(m)
    ensures exists d :: ScansOn(LastDayJob(s), y, m, d)
    ensures forall d, d' :: ScansOn(LastDayJob(s), y, m, d) && ScansOn(LastDayJob(s), y, m, d') ==> d == d'
  {
    var w :| 0 <= w < 7 && ConfigInit.DayNames[w] == Upper(s.day.value);
    CronDayOfName(s.day.value, w);
    var dim := DaysInMonth(y, m);
    var k := DaysBeforeYear(y) + DaysBeforeMonth(y, m) - 1;
    var d0 := SevenConsecutive(dim - 6, k, w);
    assert Weekday(y, m, d0) == w;
    assert ScansOn(LastDayJob(s), y, m, d0);
    forall d, d' | ScansOn(LastDayJob(s), y, m, d) && ScansOn(LastDayJob(s), y, m, d')
      ensures d == d'
    {
      SameResidueClose(k + d, k + d');
    }
  }

  // ---------------------------------------------------------------------------
  // What a fired job and the start of the script do (main.py:71-112)
  // ---------------------------------------------------------------------------

  /**
   * The rows after `startMainProcess`: the config is re-read from conf's
   * current value (its exit, if any, recorded with `tsInit`), and when it
   * loads the scan outcome is written with `tsScan`.
   */
  function ProcessRows(c0: ConfigInit.ConfValue, rows0: seq<SqliteDB.Row>, tableExists: bool,
                       file: ConfigInit.ConfigFile, tzEnv: Option<string>, answer: nat -> Reply,
                       tsInit: string, tsScan: string): seq<SqliteDB.Row>
  {
    var (c1, f) := ConfigInit.Load(c0, file, tzEnv);
    match ConfigInit.Finish(f, tableExists, tsInit)
    case Loaded =>
      if NoQuote(tsScan) && tableExists then SqliteDB.Written(rows0, Stored(c1, answer).0, Stored(c1, answer).1, tsScan)
      else rows0
    case Exited(_, msg) => SqliteDB.Written(rows0, 500, msg, tsInit)
    case Crashed(_) => rows0
  }

  /**
   * Each fire records exactly one outcome when the table exists and the
   * timestamps are well formed: either the config's exit or the scan's
   * result, and every row then holds it.
   */
  lemma EachFireWritesOnce(c0: ConfigInit.ConfValue, rows0: seq<SqliteDB.Row>, file: ConfigInit.ConfigFile,
                           tzEnv: Option<string>, answer: nat -> Reply, tsInit: string, tsScan: string)
    requires SqliteDB.KeyedOne(rows0) && NoQuote(tsInit) && NoQuote(tsScan)
    ensures var rows := ProcessRows(c0, rows0, true, file, tzEnv, answer, tsInit, tsScan);
            |rows| == |rows0| + 1 && forall i :: 0 <= i < |rows| ==> rows[i] == rows[|rows| - 1]
  {
    var (c1, f) := ConfigInit.Load(c0, file, tzEnv);
    match ConfigInit.Finish(f, true, tsInit)
    case Loaded =>
      SqliteDB.WrittenOverwritesAll(rows0, Stored(c1, answer).0, Stored(c1, answer).1, tsScan);
    case Exited(_, msg) =>
      SqliteDB.WrittenOverwritesAll(rows0, 500, msg, tsInit);
    case Crashed(_) =>
      assert false;
  }

  /** `startMainProcess`: re-read the config into conf, then scan if it loaded. */
  method StartMainProcess(conf: ConfigInit.Conf, store: SqliteDB.OutcomeStore, file: ConfigInit.ConfigFile,
                             tzEnv: Option<string>, answer: nat -> Reply, tsInit: string, tsScan: string)
      returns (init: ConfigInit.InitOutcome, posted: seq<string>)
    modifies conf, store
    ensures conf.Value() == ConfigInit.Load(old(conf.Value()), file, tzEnv).0
    ensures init == ConfigInit.Finish(ConfigInit.Load(old(conf.Value()), file, tzEnv).1, old(store.tableExists), tsInit)
    ensures posted == (if init.Loaded? then Requests(conf.Value(), answer) else [])
    ensures store.tableExists == old(store.tableExists)
    ensures store.rows == ProcessRows(old(conf.Value()), old(store.rows), old(store.tableExists), file, tzEnv, answer, tsInit, tsScan)
  {
    init := conf.InitConfig(store, file, tzEnv, tsInit);
    posted := [];
    if init.Loaded? {
      var escaped;
      posted, escaped := RunPostRequest(store, conf.Value(), answer, tsScan);
    }
  }

  /** `mainLastDayOfMonth`: the gate, then `startMainProcess`. */
  method MainLastDayOfMonth(conf: ConfigInit.Conf, store: SqliteDB.OutcomeStore, today: LocalTime,
                            file: ConfigInit.ConfigFile, tzEnv: Option<string>, answer: nat -> Reply,
                            tsInit: string, tsScan: string)
      returns (ran: bool)
    requires ValidMonth(today.month)
    modifies conf, store
    ensures ran == LastDayGate(today)
    ensures conf.Value() == (if ran then ConfigInit.Load(old(conf.Value()), file, tzEnv).0 else old(conf.Value()))
    ensures store.tableExists == old(store.tableExists)
    ensures store.rows == (if ran then ProcessRows(old(conf.Value()), old(store.rows), old(store.tableExists), file, tzEnv, answer, tsInit, tsScan)
                           else old(store.rows))
  {
    var daysInCurMonth := DaysInMonth(today.year, today.month);
    ran := daysInCurMonth - 7 < today.day;
    if ran {
      var _, _ := StartMainProcess(conf, store, file, tzEnv, answer, tsInit, tsScan);
    }
  }

  /**
   * `main`: init_db, the first read of the config, then one job per
   * schedule it sets. The jobs are fixed from this first read; each fire
   * re-reads the config into the same conf.
   */
  method StartScript(store: SqliteDB.OutcomeStore, file: ConfigInit.ConfigFile, tzEnv: Option<string>,
                     tsDb: string, tsInit: string)
      returns (conf: ConfigInit.Conf, init: ConfigInit.InitOutcome, jobs: seq<Job>)
    modifies store
    ensures fresh(conf)
    ensures store.tableExists
    ensures !NoQuote(tsDb) ==> init == ConfigInit.Crashed(SqliteDB.SyntaxError) && conf.Value() == ConfigInit.Unset && store.rows == []
    ensures NoQuote(tsDb) ==>
      && conf.Value() == ConfigInit.Load(ConfigInit.Unset, file, tzEnv).0
      && init == ConfigInit.Finish(ConfigInit.Load(ConfigInit.Unset, file, tzEnv).1, true, tsInit)
      && store.rows == (if init.Exited? then SqliteDB.Written([SqliteDB.Row(1, 200, SqliteDB.InitializedMessage, tsDb)], 500, init.msg, tsInit)
                        else [SqliteDB.Row(1, 200, SqliteDB.InitializedMessage, tsDb)])
    ensures init.Loaded? ==> ConfigInit.Ready(conf.Value()) && jobs == RegisteredJobs(conf.Value())
    ensures !init.Loaded? ==> jobs == []
  {
    conf := new ConfigInit.Conf();
    jobs := [];
    var dbError := store.InitDb(tsDb);
    if dbError.Some? {
      return conf, ConfigInit.Crashed(dbError.value), [];
    }
    init := conf.InitConfig(store, file, tzEnv, tsInit);
    ConfigInit.LoadReady(ConfigInit.Unset, file, tzEnv);
    if init.Loaded? {
      jobs := RegisteredJobs(conf.Value());
    }
  }
}
