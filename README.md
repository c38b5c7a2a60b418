# syncthing-scheduler, modelled in Dafny

syncthing-scheduler is a small Python service. It reads `config.yml` and
registers cron jobs. When a job fires, it posts rescan requests to a
Syncthing instance. The outcome of each run (a code, a message and a
timestamp) goes into a one-table SQLite store. A `/status` HTTP endpoint
reads that outcome back.

This project models that core in Dafny and proves properties of the model:

- `util.dfy` (module `Util`): `fixString`, the `%H:%M` check and extraction,
  `safeCastBool`, and the decimal text of an `int`. It also holds a generic
  filter with its index characterisation, which is the shape of the
  `(x for x in s if p(x))` generators the source uses.
- `yaml.dfy` (module `Yaml`): the values a YAML document loads into, and the
  parts of Python's data model the code relies on. These are truthiness,
  `str()`, `repr()` of strings and lists, and what `for x in v` goes through.
- `sqlite_db.dfy` (module `SqliteDB`): the LAST_STATUS table as a class
  `OutcomeStore` whose fields `init_db`, `update_db` and `get_from_db` read
  and update. A `'` in the message or timestamp breaks the interpolated SQL.
- `messages.dfy` (module `Messages`): the fixed texts `initConfig` records,
  and which of them hold a `'`.
- `config_init.dfy` (module `ConfigInit`): `initConfig` and
  `checkMandatoryFields`. They are given twice:
  - as functions folding the YAML documents into a configuration value;
  - as the methods of class `Conf`, the module-level `conf` whose fields the
    loops assign, proved to agree with those functions.
- `calendar.dfy` (module `Calendar`): `calendar.monthrange` month lengths and
  `date.weekday()`.
- `main.py` is split across two parts of `main.dfy` (module `Main`):
  - `runPostRequest`, as functions that specify it and as methods with the
    source's loops;
  - the last-days-of-the-month gate, the cron jobs `main` registers (as
    due-predicates over a local time), `startMainProcess` and `main`.
- `status_controller.dfy` (module `StatusController`): `get_status`.

Nothing outside the process is modelled directly; each becomes a parameter:

- Network replies: the function `answer: nat -> Reply`, whose k-th value is
  what the k-th request of a run gets back (a response, a timeout or another
  exception).
- The clock: a timestamp string per run, and for the jobs a local time given
  as its calendar fields.
- `config.yml`: the loaded list of YAML documents, or `Missing`, plus whether
  a syntax error follows the documents that load.
- The environment: the `TZ` variable as an `Option<string>`.

Where the code does something other than what its messages and names lead
one to expect, the model follows the code:

- `get_from_db` reads `records[0]` before it tests `records`. On an empty table
  it raises IndexError and never returns None. `get_status` therefore never
  sends its 400 "Cannot find response record" reply; an empty or missing
  table is Flask's 500 instead (`StatusController.NoBadRequestBody`).
- The table has no key, so `INSERT OR IGNORE` never ignores. Each successful
  `update_db` adds a row, and the `UPDATE` then rewrites every row. A read
  still returns the last write (`SqliteDB.WriteThenSelect`), but the table
  grows by one row per write (`SqliteDB.WrittenOverwritesAll`).
- A failed write is not swallowed. In `runPostRequest`, a write that fails in
  the try block goes to `except Exception`, whose own write fails for the
  same reason, so the sqlite error escapes (`Main.RunPostRequest`).
- The invalid-day messages contain an apostrophe ("schedule's"), so their
  `update_db` raises. The final handler records "config.yml file is not a
  valid yml file" instead (`ConfigInit.BadDayRecordsNotValidYml`).
- The weekday filter and the `(daysInCurMonth - 7) < curDay` gate admit
  exactly one day in every month. A seven-day window holds each weekday once
  (`Main.LastDayJobOncePerMonth`).
- The weekly day must be spelt exactly as `MON`..`SUN`. The last-day-of-month
  day is compared upper-cased, so `mon` passes there and fails for the weekly
  schedule (`ConfigInit.DayCheckCaseDiffers`).

## Model

| member | source | states |
|---|---|---|
| Util.FixString | util.py:30-33 | the fixed text holds no `'` and only printable characters |
| Util.FixStringKeepsPrintables | util.py:30-33 | the result is exactly the printable characters of the input, in their order, each `'` turned into `"`: an increasing index list that misses no printable position |
| Util.FixStringIdentity | util.py:30-33 | printable text without `'` is left unchanged |
| Util.FixStringIdempotent | util.py:30-33 | fixing twice is fixing once |
| Util.ReplaceQuotes | util.py:33 | same length, and each character is swapped `'`→`"` position by position |
| Util.FilterPicks | util.py:31 | a generator filter keeps exactly the accepted items, in order: each kept item sits at an increasing position of the input, and no accepted position is skipped |
| Util.FilterKept | main.py:42 | every item a filter keeps is accepted |
| Util.ExtractHourAndMinute | util.py:5-7 | when strptime accepts the text, the hour is below 24 and the minute below 60 |
| Util.ExtractHourAndMinuteExact | util.py:5-15 | the text is accepted as time t exactly when t is a valid time and the text is one of t's spellings (each field one digit or two, zero-padded) |
| Util.FormatTimeRoundTrip | util.py:5-15 | the zero-padded `HH:MM` text of a valid time passes `isTimeFormat` and is read back as that time |
| Util.SafeCastBoolCaseVariants | util.py:18-22 | `safeCastBool` holds exactly of the case variants of "true", "1", "y" and "yes" |
| Util.Decimal | main.py:26 | the decimal text of a status code is printable and holds no `'` |
| Util.NatDigitsRoundTrip | main.py:26 | the decimal digits of n read back as n |
| Yaml.ReprStrPlain | main.py:48 | `repr()` of printable text without quote or backslash is that text between single quotes |
| SqliteDB.Updated | sqliteDB.py:40-41 | the UPDATE keeps the row count |
| SqliteDB.WrittenOverwritesAll | sqliteDB.py:36-44 | on a table whose rows all have ID 1, a write adds one row and leaves every row holding the written values |
| SqliteDB.Written | sqliteDB.py:36-44 | a write appends its row and then every row with ID 1 holds the written values; other rows are unchanged |
| SqliteDB.Select | sqliteDB.py:47-59 | the read fails exactly when the table is missing or empty, and never returns None |
| SqliteDB.WriteThenSelect | sqliteDB.py:36-59 | a read after a successful write returns the written code, message and timestamp |
| SqliteDB.OutcomeStore.UpdateDb | sqliteDB.py:36-44 | the write fails with a syntax error when the message or timestamp holds a `'`, with "no such table" when the table is missing, and otherwise appends the written row; a failed write changes nothing |
| SqliteDB.OutcomeStore.InitDb | sqliteDB.py:14-33 | the table is re-created empty, then holds the single "Initialized" row unless its timestamp breaks the write |
| SqliteDB.OutcomeStore.GetFromDb | sqliteDB.py:47-59 | a missing table raises, an empty one raises IndexError, and otherwise the first row is returned; the result is never None |
| SqliteDB.InitTwice | sqliteDB.py:14-33 | two initialisations leave exactly one row, the second call's sentinel |
| SqliteDB.UpdateThenRead | sqliteDB.py:36-59 | after init and one write, every row holds the write and the read returns it |
| Messages.BadDayHasQuote | configInit.py:127 | both invalid-day messages contain a `'` |
| ConfigInit.CheckMessage | configInit.py:35-71 | no mandatory-field message holds a `'` |
| ConfigInit.FirstFailingCheck | configInit.py:35-71 | none is reported exactly when every check passes; otherwise the reported check is the first failing one in the source's order |
| ConfigInit.Finish | configInit.py:205-214 | every recorded exit has code 500 |
| ConfigInit.AllFoldersIffNoFolders | configInit.py:195-198 | `allFolders` is the negated truthiness of `foldersToScan`; for a list or None it is true exactly when the list is empty or absent |
| ConfigInit.PlaceholderLeavesField | configInit.py:108-113 | a setting whose only values are its placeholder keeps its previous value |
| ConfigInit.GeneralEntriesKeep | configInit.py:107-115 | a general setting no entry names keeps its value |
| ConfigInit.BackupEntriesKeep | configInit.py:118-185 | the backup section never changes a general setting |
| ConfigInit.DocEntriesKeep | configInit.py:104-185 | a document that does not name a general setting leaves it unchanged |
| ConfigInit.UnassignedKept | configInit.py:107-115 | entries none of which assigns a general setting (only placeholders, or other keys) leave it as it was |
| ConfigInit.LastAssignmentWins | configInit.py:107-115 | within a `general_settings` section, the last entry that assigns a setting decides it |
| ConfigInit.DocEntriesSplit | configInit.py:105 | a document's entries after a prefix that runs through continue from the state the prefix left |
| ConfigInit.DocumentsSplit | configInit.py:104 | the documents after a prefix that runs through continue from the state the prefix left |
| ConfigInit.LastSectionDecides | configInit.py:105-115 | within a document, a `general_settings` section after which no section names the setting decides it |
| ConfigInit.LastDocumentDecides | configInit.py:104-185 | the last document that names a setting decides it, once the walk reaches that document |
| ConfigInit.LastWriterWins | configInit.py:104-115 | last writer wins: the last assigning entry of the whole walk, once reached, is the setting's final value |
| ConfigInit.UnnamedSettingKept | configInit.py:104-185 | `conf` is never reset: a general setting no document names keeps the value it had before the call |
| ConfigInit.BackupEntriesKeepSchedule | configInit.py:118-185 | a backup section with no non-Null entry for a schedule's key leaves that schedule as it was |
| ConfigInit.DocEntriesKeepSchedule | configInit.py:105-185 | a document that reads no section for a schedule leaves that schedule as it was |
| ConfigInit.UnreadScheduleKept | configInit.py:104-185 | `conf` is never reset: a schedule no document reads keeps the value it had before the call, even when the file no longer sets it |
| ConfigInit.SectionReplacesSchedule | configInit.py:119-185 | a schedule section read through stores the schedule built from the empty one, whatever schedule was held before |
| ConfigInit.ScheduleEntry | configInit.py:123-183 | an entry that stops the walk leaves the schedule as it was; its exit is the schedule's bad-day or bad-time message, and only a non-string last-day-of-month day raises |
| ConfigInit.DayChecksCompared | configInit.py:123-172 | for any day text whose upper-cased form names weekday w, the last-day-of-month check stores it as written, while the weekly check passes it exactly when it is spelt as that day name and otherwise exits with the weekly bad-day message |
| ConfigInit.WeeklyDaysPassLastDay | configInit.py:123-172 | every day value the weekly check accepts, the last-day-of-month check accepts with the same result |
| ConfigInit.DayCheckCaseDiffers | configInit.py:124-166 | "mon" is accepted as a last-day-of-month day and rejected as a weekly one |
| ConfigInit.TimeEntryExact | configInit.py:131-136 | a time entry continues, storing its `str()` with t's hour and minute, exactly when t is a valid time of day and the text is one of t's spellings |
| ConfigInit.TimeEntryRejected | configInit.py:137-141 | a time entry that spells no valid time leaves the schedule unchanged and exits with the schedule's bad-time message |
| ConfigInit.OnlyStringsAreTimes | configInit.py:132 | only a string value can pass the time check |
| ConfigInit.ScheduleEntriesWellFormed | configInit.py:121-141 | a schedule's entries keep it well formed: a day is a valid day name, and hour and minute are set together with a time they were read from |
| ConfigInit.BackupEntriesWellFormed | configInit.py:118-185 | the backup section keeps every schedule of the configuration well formed |
| ConfigInit.GeneralEntriesSchedules | configInit.py:107-115 | general settings never touch a schedule |
| ConfigInit.DocEntriesWellFormed | configInit.py:105-185 | one document keeps the configuration well formed |
| ConfigInit.DocumentsWellFormed | configInit.py:104-185 | the whole walk keeps the configuration well formed |
| ConfigInit.Load | configInit.py:98-208 | a load that continues read a present, well-formed file, took TZ from the environment, set `allFolders` from `foldersToScan` and passed every mandatory check |
| ConfigInit.LoadReady | configInit.py:98-202 | a returned configuration passed every mandatory check and has its timezone, `allFolders` and well-formed schedules; an exit keeps well-formedness too |
| ConfigInit.BadDayRecordsNotValidYml | configInit.py:127-130 | an invalid day's exit records "not a valid yml file", because the day message breaks the write |
| ConfigInit.CheckExitRecorded | configInit.py:35-71 | a failed mandatory check records its own message with 500 |
| ConfigInit.BadTimeRecorded | configInit.py:137-141 | an invalid time records its schedule's own message with 500 |
| ConfigInit.TzExitRecorded | configInit.py:186-193 | a missing TZ records its own message with 500 |
| ConfigInit.FileExitRecorded | configInit.py:204-208 | a missing config.yml records its own message with 500 |
| ConfigInit.BuildSchedule | configInit.py:121-141 | the loop over a schedule's items yields the schedule and exit that the fold over its entries defines |
| ConfigInit.RecordExit | configInit.py:205-214 | the outcome is the one Finish defines; the 500 is appended exactly when the outcome is a recorded exit, and otherwise nothing changes |
| ConfigInit.Conf.constructor | configInit.py:32 | `conf` starts with every field None |
| ConfigInit.Conf.ApplyGeneralSettings | configInit.py:107-115 | the fields become what the fold over the general settings gives from their old values |
| ConfigInit.Conf.ApplyBackupSchedule | configInit.py:118-185 | the fields and the exit are what the fold over the backup section gives from the old values |
| ConfigInit.Conf.ApplyDocument | configInit.py:105-185 | the fields and the exit are what the fold over one document gives from the old values |
| ConfigInit.Conf.InitConfig | configInit.py:98-214 | `conf` ends as the walk leaves it from its old value; the outcome and the rows are those of that walk's exit |
| Calendar.DaysInMonth | main.py:75 | a month has 28 to 31 days, and February has 29 exactly in leap years |
| Calendar.Weekday | main.py:102-108 | a weekday is a number from 0 (Monday) to 6 (Sunday) |
| Calendar.NextDate | main.py:73-77 | the day after a valid date is a valid date |
| Calendar.DaysBeforeDecember | main.py:75 | the months before December hold 334 days, 335 in a leap year |
| Calendar.YearLength | main.py:75 | a year has 366 days in a leap year and 365 otherwise |
| Calendar.DayNumberOfNextDate | main.py:73 | day numbers go up by one from each date to the next, across month and year ends |
| Calendar.WeekdayOfNextDate | main.py:102-108 | 0001-01-01 is a Monday and the weekday advances by one from each date to the next, which pins Weekday down as `date.weekday()` |
| Main.FolderId | main.py:44 | specification function for `split("=")[-1]`; its properties are the three FolderId lemmas below |
| Main.FolderIdIsLastField | main.py:44 | `split("=")[-1]` is the longest suffix without `=`, preceded by `=` when it is not the whole URL |
| Main.FolderIdAfterEquals | main.py:44 | text after an `=` alone decides the id |
| Main.FolderIdWithoutEquals | main.py:44 | text without `=` is its own id |
| Main.FolderIdOfFolderUrl | main.py:36-44 | the id read back from a folder's request URL is the folder name when it holds no `=` |
| Main.Handled | main.py:58-67 | a timeout is recorded as 408 with the timeout message, any other exception as 500 with its fixed text, and neither message holds a `'` |
| Main.TryBody | main.py:15-56 | a message the try block writes never holds a `'`; folder mode writes only 200 or 500, and all-folders mode writes the response's own status code |
| Main.Stored | main.py:15-67 | the recorded message never holds a `'`, so only the timestamp or a missing table can break the write |
| Main.AllFoldersOutcome | main.py:16-29 | all-folders mode posts one request: 200 records the success message, another code records that code with the fixed error text, a timeout records 408, and any other exception records 500 with its text |
| Main.PostFoldersPrefix | main.py:35-37 | the folder loop from the start equals the loop resumed after n responses |
| Main.AllRequestsIssued | main.py:35-39 | with no exception, one URL per folder is posted in order and every response is kept before any code is examined |
| Main.FirstRaiseStops | main.py:35-37 | the first reply that raises ends the loop, after posting its own URL, and is the exception handled |
| Main.TimeoutRecords408 | main.py:58-61 | a timeout on the n-th folder request records 408 after exactly n + 1 requests |
| Main.FailureRecords500 | main.py:63-67 | any other exception on the n-th folder request records 500 with the exception's fixed text, after exactly n + 1 requests |
| Main.NotIterableRecords500 | main.py:35 | a `foldersToScan` that cannot be iterated posts nothing and records 500 with the "object is not iterable" text |
| Main.FolderModeOutcome | main.py:39-56 | folder mode posts one URL per folder; any non-200 code records 500 with the failed ids, otherwise 200 with the folders |
| Main.FailedIdsExact | main.py:42-44 | the failed ids are exactly those of the non-200 responses, in request order, none missed |
| Main.PostEach | main.py:35-37 | the loop posts and keeps what the folder-loop specification defines |
| Main.CollectFailed | main.py:42-44 | the loop over `onlyFailed` collects exactly the failed ids |
| Main.TryScan | main.py:15-56 | the try block posts the specified requests and reaches the specified decision |
| Main.RunPostRequest | main.py:10-68 | the requests are the specified ones; the one write succeeds unless the timestamp holds a `'` or the table is missing, in which case that sqlite error escapes and no row changes |
| Main.CronWeekday | main.py:104 | a cron name maps to its weekday index, and only the seven names are accepted |
| Main.RegisteredJobs | main.py:96-108 | one job is registered per schedule that is set |
| Main.RegisteredJobsDue | main.py:71-108 | some registered job starts a scan at a local time exactly when a set schedule is due then: the daily one at its time, the weekly one at its time on its day, the last-day one at its time on its day within the month's last seven days |
| Main.LastDayGate | main.py:77 | the gate always admits the month's last day and never admits days 1 to 21 |
| Main.CronDayOfName | main.py:104-108 | a configured day, in any letter case, lower-cases to the cron name of its weekday |
| Main.LowerOfUpper | main.py:108 | lower-casing after upper-casing is plain lower-casing |
| Main.DailyJobDue | main.py:98-100 | the daily job starts a scan exactly at its hour and minute, every day |
| Main.WeeklyJobDue | main.py:101-104 | the weekly job starts a scan exactly at its time, on its configured weekday |
| Main.LastDayJobDue | main.py:71-108 | the last-day job starts a scan exactly at its time, on its weekday, within the last seven days of the month |
| Main.LastDayJobOncePerMonth | main.py:71-108 | in every month the last-day job scans on exactly one day |
| Main.EachFireWritesOnce | main.py:81-84 | with the table present and clean timestamps, a fire adds exactly one outcome: the config's exit or the scan's result, held by every row |
| Main.StartMainProcess | main.py:81-84 | the config is re-read from the current `conf`; a scan follows only when it loads, and the rows are those the process defines |
| Main.MainLastDayOfMonth | main.py:71-78 | the process runs exactly when the gate admits today; otherwise nothing changes |
| Main.StartScript | main.py:87-108 | init_db first (a broken timestamp crashes before the config is read); then the config is read once from all-None; jobs are registered only when it loads and is ready |
| StatusController.StatusReply | statusController.py:9-25 | no record gives 400 with the "Cannot find response record" error under "Response"; a record gives its own code as the status, with the record under "Response" |
| StatusController.Served | statusController.py:9-25 | an exception in `get_from_db` becomes Flask's 500 page and only then; a record is served with its own code as the status |
| StatusController.GetStatus | statusController.py:9-25 | the reply is the one the stored rows determine |
| StatusController.NoBadRequestBody | statusController.py:9-25 | the 400 "no record yet" reply is never served, and an empty table gives Flask's 500 |
| StatusController.ServesLastWrite | statusController.py:9-25 | after a write, the endpoint serves that write's code as status and its fields as the body |

## Left out

- Printing, logging and `printSetConfig`: output only, no effect on state.
- A loaded mapping never repeats a key; `Yaml.Value.Mapping` allows it, so
  the lemmas about repeated keys (such as `ConfigInit.LastAssignmentWins`)
  also cover inputs the program never receives.
- YAML parsing: the model starts from the loaded documents. PyYAML's own
  readings are not modelled, for example an unquoted `12:30` loading as the
  sexagesimal integer 750.
- The clock (`getCurrentDateTime`, `datetime.today()`): timestamps and the
  local time are parameters. `initConfig` takes a fresh timestamp for each
  write; the model uses one `ts` per call.
- The network, `requests` and its URL preparation: replies come from the
  `answer` parameter. The `InvalidHeader` that a non-string API key raises
  counts as "another exception" among the replies.
- Main.FailedIds: reads each id from the URL as the code built it.
  `requests` percent-encodes the URL it sends, and the source reads the id
  from `res.request.url`, so a folder `my docs` is reported as `my%20docs`
  in the 500 message, where the model reports `my docs`.
- SqliteDB.OutcomeStore.InitDb: does not model the `except Error` arm of
  `init_db` (sqliteDB.py:28-29). The database file always opens and the
  DROP and CREATE statements always succeed. In the source a failure there
  is printed, and the final `update_db` still runs on whatever table is then
  present.
- `str.isprintable` beyond Latin-1: exact below U+0100, a fixed table of
  separators and format characters above it.
- `str.lower`/`str.upper`: ASCII letters only.
- Python's `\d` in strptime also matches non-ASCII digits; the model accepts
  ASCII digits only.
- SqliteDB.OutcomeStore.UpdateDb: treats every `'` in the message or
  timestamp as a broken statement. A quote that happens to form valid SQL
  (an injection) is not modelled.
- APScheduler: only which local times a trigger fires at is modelled, for
  one process-wide timezone. Its threads, misfire handling and timezone data
  are not. A job's exceptions, `sys.exit` included, are caught by the
  scheduler, so one fire never stops the others.
- Concurrency between the scheduler thread and the Flask thread, and between
  coinciding jobs: each operation is modelled as atomic.
- Flask, waitress and `json.dumps`: the reply is the status plus a JSON value
  before serialisation; `mimetype`/`content_type` and the exact bytes are not
  modelled.
- containerChecks.py is not part of this model.
- The import-time call `main()` is the method `Main.StartScript`. The final
  `statusController.runApi()` (serving forever) is not modelled.
- `sys.exit()` is the outcome `Exited(500, msg)`. A process exit during the
  first read is not carried further.
