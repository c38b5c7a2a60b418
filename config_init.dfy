/**
 * configInit.py: reading config.yml into the module-level `conf`.
 *
 * The YAML documents are walked key by key; every recognised key assigns a
 * field of `conf` (or of a fresh schedule), so later keys and documents
 * overwrite earlier ones, and `conf` is never reset between calls. The walk
 * is first given as functions over the configuration value (the
 * specification), then as the methods of class `Conf` that update its
 * fields in loops, proved to agree with it.
 */
module ConfigInit {
  import opened Wrappers
  import opened Util
  import opened Yaml
  import opened Messages
  import SqliteDB

  // ---------------------------------------------------------------------------
  // Data (configInit.py:11-32)
  // ---------------------------------------------------------------------------

  /** `ConfSchedule`: each field None until the file sets it. */
  datatype ConfSchedule = ConfSchedule(day: Option<string>, time: Option<string>,
                                       hour: Option<nat>, minute: Option<nat>)

  const EmptySchedule := ConfSchedule(None, None, None, None)

  /** The fields of `Config`; a YAML Null is Python's None. */
  datatype ConfValue = ConfValue(
    syncthingContainerName: Value,
    url: Value,
    apiKey: Value,
    foldersToScan: Value,
    allFolders: Option<bool>,
    weeklySchedule: Option<ConfSchedule>,
    dailySchedule: Option<ConfSchedule>,
    lastDayOfMonthSchedule: Option<ConfSchedule>,
    tz: Option<string>)

  /** `Config(None, None, None, None, None, None, None, None, None)`. */
  const Unset := ConfValue(Null, Null, Null, Null, None, None, None, None, None)

  /** config.yml as the process finds it. */
  datatype ConfigFile =
    | Missing
      /** The documents that load, and whether a syntax error follows them. */
    | Present(docs: seq<Value>, malformedTail: bool)

  /** How a step of the walk ends. */
  datatype Flow =
    | Continue
      /** `update_db(500, msg, ...)` then `sys.exit()` */
    | Exit(msg: string)
      /** an Exception, caught at the end of `initConfig` */
    | Raise

  /** How `initConfig` ends: `conf` returned, exit after recording a 500, or an escaping sqlite error. */
  datatype InitOutcome = Loaded | Exited(code: int, msg: string) | Crashed(err: SqliteDB.DbError)

  datatype ScheduleKind = Weekly | Daily | LastDayOfMonth

  // ---------------------------------------------------------------------------
  // Constants
  // ---------------------------------------------------------------------------

  const DayNames: seq<string> := ["MON", "TUE", "WED", "THU", "FRI", "SAT", "SUN"]

  function BadDay(kind: ScheduleKind): string {
    if kind == Weekly then WeeklyBadDay else LastDayBadDay
  }

  function BadTime(kind: ScheduleKind): string {
    match kind
    case Weekly => WeeklyBadTime
    case Daily => DailyBadTime
    case LastDayOfMonth => LastDayBadTime
  }

  // ---------------------------------------------------------------------------
  // checkMandatoryFields (configInit.py:35-71)
  // ---------------------------------------------------------------------------

  /** A schedule with both time and day. */
  predicate HasTimeAndDay(s: ConfSchedule) {
    s.time.Some? && s.day.Some?
  }

  /** Every check of checkMandatoryFields passes. */
  predicate Complete(c: ConfValue) {
    && c.syncthingContainerName != Null
    && c.url != Null
    && c.apiKey != Null
    && (c.weeklySchedule.Some? || c.dailySchedule.Some? || c.lastDayOfMonthSchedule.Some?)
    && (c.weeklySchedule.Some? ==> HasTimeAndDay(c.weeklySchedule.value))
    && (c.lastDayOfMonthSchedule.Some? ==> HasTimeAndDay(c.lastDayOfMonthSchedule.value))
    && (c.dailySchedule.Some? ==> c.dailySchedule.value.time.Some?)
  }

  /** The checks of checkMandatoryFields, in the order it makes them. */
  datatype MandatoryCheck =
    | ContainerName | Url | ApiKey | AnySchedule | WeeklyTimeAndDay | LastDayTimeAndDay | DailyTime

  function CheckMessage(m: MandatoryCheck): (msg: string)
    ensures NoQuote(msg)
  {
    match m
    case ContainerName => ContainerMissingQuoteFree(); ContainerMissing
    case Url => UrlMissingQuoteFree(); UrlMissing
    case ApiKey => ApiKeyMissingQuoteFree(); ApiKeyMissing
    case AnySchedule => NoScheduleQuoteFree(); NoSchedule
    case WeeklyTimeAndDay => WeeklyIncompleteQuoteFree(); WeeklyIncomplete
    case LastDayTimeAndDay => LastDayIncompleteQuoteFree(); LastDayIncomplete
    case DailyTime => DailyIncompleteQuoteFree(); DailyIncomplete
  }

  /** Whether one check passes. */
  predicate Passes(c: ConfValue, m: MandatoryCheck) {
    match m
    case ContainerName => c.syncthingContainerName != Null
    case Url => c.url != Null
    case ApiKey => c.apiKey != Null
    case AnySchedule => c.weeklySchedule.Some? || c.dailySchedule.Some? || c.lastDayOfMonthSchedule.Some?
    case WeeklyTimeAndDay => c.weeklySchedule.Some? ==> HasTimeAndDay(c.weeklySchedule.value)
    case LastDayTimeAndDay => c.lastDayOfMonthSchedule.Some? ==> HasTimeAndDay(c.lastDayOfMonthSchedule.value)
    case DailyTime => c.dailySchedule.Some? ==> c.dailySchedule.value.time.Some?
  }

  const CheckOrder: seq<MandatoryCheck> :=
    [ContainerName, Url, ApiKey, AnySchedule, WeeklyTimeAndDay, LastDayTimeAndDay, DailyTime]

  /**
   * checkMandatoryFields: the first check, in the source's order, that
   * fails; its message is recorded with code 500 before exiting.
   */
  function FirstFailingCheck(c: ConfValue): (r: Option<MandatoryCheck>)
    ensures r.None? <==> Complete(c)
    ensures r.None? <==> forall k :: 0 <= k < |CheckOrder| ==> Passes(c, CheckOrder[k])
    ensures r.Some? ==> exists k :: (0 <= k < |CheckOrder| && CheckOrder[k] == r.value &&
                                     !Passes(c, CheckOrder[k]) &&
                                     forall j :: 0 <= j < k ==> Passes(c, CheckOrder[j]))
  {
    if c.syncthingContainerName == Null then
      assert CheckOrder[0] == ContainerName;
      Some(ContainerName)
    else if c.url == Null then
      assert CheckOrder[1] == Url;
      Some(Url)
    else if c.apiKey == Null then
      assert CheckOrder[2] == ApiKey;
      Some(ApiKey)
    else if c.weeklySchedule.None? && c.dailySchedule.None? && c.lastDayOfMonthSchedule.None? then
      assert CheckOrder[3] == AnySchedule;
      Some(AnySchedule)
    else if c.weeklySchedule.Some? && !HasTimeAndDay(c.weeklySchedule.value) then
      assert CheckOrder[4] == WeeklyTimeAndDay;
      Some(WeeklyTimeAndDay)
    else if c.lastDayOfMonthSchedule.Some? && !HasTimeAndDay(c.lastDayOfMonthSchedule.value) then
      assert CheckOrder[5] == LastDayTimeAndDay;
      Some(LastDayTimeAndDay)
    else if c.dailySchedule.Some? && c.dailySchedule.value.time.None? then
      assert CheckOrder[6] == DailyTime;
      Some(DailyTime)
    else
      None
  }

  // ---------------------------------------------------------------------------
  // The walk over the documents (configInit.py:104-185), as functions
  // ---------------------------------------------------------------------------

  /** One `general_settings` entry (configInit.py:107-115). */
  function GeneralEntry(c: ConfValue, key: string, val: Value): ConfValue {
    if key == "syncthing_container_name" && val != Str(ContainerPlaceholder) then c.(syncthingContainerName := val)
    else if key == "url" && val != Str(UrlPlaceholder) then c.(url := val)
    else if key == "api_key" && val != Str(ApiKeyPlaceholder) then c.(apiKey := val)
    else if key == "folders_to_scan" then c.(foldersToScan := val)
    else c
  }

  function GeneralEntries(c: ConfValue, es: seq<(string, Value)>): ConfValue
    decreases |es|
  {
    if es == [] then c else GeneralEntries(GeneralEntry(c, es[0].0, es[0].1), es[1..])
  }

  /**
   * One entry of a schedule section (configInit.py:122-141, 147-158,
   * 164-183). Weekly days must match exactly; last-day-of-month days are
   * compared upper-cased (`.upper()` raises on a non-string) and kept as
   * written; times go through `str()` and the `%H:%M` check.
   */
  function ScheduleEntry(kind: ScheduleKind, s: ConfSchedule, key: string, val: Value): (r: (ConfSchedule, Flow))
    ensures !r.1.Continue? ==> r.0 == s
    ensures r.1.Exit? ==> r.1 == Exit(BadDay(kind)) || r.1 == Exit(BadTime(kind))
    ensures r.1.Raise? ==> key == "day" && kind == LastDayOfMonth && !val.Str?
  {
    if key == "day" && kind == Weekly then
      if val.Str? && val.s in DayNames then (s.(day := Some(val.s)), Continue)
      else (s, Exit(BadDay(kind)))
    else if key == "day" && kind == LastDayOfMonth then
      if !val.Str? then (s, Raise)
      else if Upper(val.s) in DayNames then (s.(day := Some(val.s)), Continue)
      else (s, Exit(BadDay(kind)))
    else if key == "time" then
      var text := Render(val);
      match ExtractHourAndMinute(text)
      case Some(t) => (s.(time := Some(text), hour := Some(t.hour), minute := Some(t.minute)), Continue)
      case None => (s, Exit(BadTime(kind)))
    else (s, Continue)
  }

  function ScheduleEntries(kind: ScheduleKind, s: ConfSchedule, es: seq<(string, Value)>): (ConfSchedule, Flow)
    decreases |es|
  {
    if es == [] then (s, Continue)
    else
      var (s', f) := ScheduleEntry(kind, s, es[0].0, es[0].1);
      if f.Continue? then ScheduleEntries(kind, s', es[1..]) else (s', f)
  }

  function KindOfKey(key: string): Option<ScheduleKind> {
    if key == "weekly" then Some(Weekly)
    else if key == "daily" then Some(Daily)
    else if key == "last_day_of_month" then Some(LastDayOfMonth)
    else None
  }

  function SetSchedule(c: ConfValue, kind: ScheduleKind, s: ConfSchedule): ConfValue {
    match kind
    case Weekly => c.(weeklySchedule := Some(s))
    case Daily => c.(dailySchedule := Some(s))
    case LastDayOfMonth => c.(lastDayOfMonthSchedule := Some(s))
  }

  /** One `backup_schedule` entry: a schedule is stored only once its section is read through. */
  function BackupEntry(c: ConfValue, key: string, val: Value): (ConfValue, Flow) {
    if KindOfKey(key).None? || val == Null then (c, Continue)
    else if !val.Mapping? then (c, Raise)
    else
      var kind := KindOfKey(key).value;
      var (s, f) := ScheduleEntries(kind, EmptySchedule, val.entries);
      if f.Continue? then (SetSchedule(c, kind, s), Continue) else (c, f)
  }

  function BackupEntries(c: ConfValue, es: seq<(string, Value)>): (ConfValue, Flow)
    decreases |es|
  {
    if es == [] then (c, Continue)
    else
      var (c', f) := BackupEntry(c, es[0].0, es[0].1);
      if f.Continue? then BackupEntries(c', es[1..]) else (c', f)
  }

  /** One top-level entry of a document; `.items()` on a non-mapping raises. */
  function DocEntry(c: ConfValue, key: string, val: Value): (ConfValue, Flow) {
    if key == "general_settings" && val != Null then
      if val.Mapping? then (GeneralEntries(c, val.entries), Continue) else (c, Raise)
    else if key == "backup_schedule" && val != Null then
      if val.Mapping? then BackupEntries(c, val.entries) else (c, Raise)
    else (c, Continue)
  }

  function DocEntries(c: ConfValue, es: seq<(string, Value)>): (ConfValue, Flow)
    decreases |es|
  {
    if es == [] then (c, Continue)
    else
      var (c', f) := DocEntry(c, es[0].0, es[0].1);
      if f.Continue? then DocEntries(c', es[1..]) else (c', f)
  }

  function Document(c: ConfValue, doc: Value): (ConfValue, Flow) {
    if doc.Mapping? then DocEntries(c, doc.entries) else (c, Raise)
  }

  function Documents(c: ConfValue, docs: seq<Value>): (ConfValue, Flow)
    decreases |docs|
  {
    if docs == [] then (c, Continue)
    else
      var (c', f) := Document(c, docs[0]);
      if f.Continue? then Documents(c', docs[1..]) else (c', f)
  }

  /**
   * The body of `initConfig` up to the exit it takes: the walk, the trailing
   * parse error, TZ, `allFolders`, then checkMandatoryFields
   * (configInit.py:100-200, 204-208).
   */
  function Load(c: ConfValue, file: ConfigFile, tzEnv: Option<string>): (r: (ConfValue, Flow))
    ensures r.1.Continue? ==> file.Present? && !file.malformedTail && tzEnv.Some? && r.0.tz == tzEnv
    ensures r.1.Continue? ==> r.0.allFolders == Some(!Truthy(r.0.foldersToScan)) && FirstFailingCheck(r.0).None?
  {
    match file
    case Missing => (c, Exit(FileNotFound))
    case Present(docs, malformed) =>
      var (c1, f) := Documents(c, docs);
      if !f.Continue? then (c1, f)
      else if malformed then (c1, Raise)
      else if tzEnv.None? then (c1, Exit(TzMissing))
      else
        var c2 := c1.(tz := tzEnv, allFolders := Some(!Truthy(c1.foldersToScan)));
        match FirstFailingCheck(c2)
        case Some(m) => (c2, Exit(CheckMessage(m)))
        case None => (c2, Continue)
  }

  /**
   * How an exit is recorded (configInit.py:210-214): the 500 is written; if
   * that write raises, the handler at the end of `initConfig` writes the
   * "not a valid yml" message instead, and if that raises too the sqlite
   * error escapes.
   */
  function Finish(f: Flow, tableExists: bool, ts: string): (r: InitOutcome)
    ensures r.Exited? ==> r.code == 500
  {
    match f
    case Continue => Loaded
    case Exit(msg) =>
      if !NoQuote(ts) then Crashed(SqliteDB.SyntaxError)
      else if !tableExists then Crashed(SqliteDB.NoSuchTable)
      else if NoQuote(msg) then Exited(500, msg)
      else Exited(500, NotValidYml)
    case Raise =>
      if !NoQuote(ts) then Crashed(SqliteDB.SyntaxError)
      else if !tableExists then Crashed(SqliteDB.NoSuchTable)
      else Exited(500, NotValidYml)
  }

  // ---------------------------------------------------------------------------
  // Properties of the walk
  // ---------------------------------------------------------------------------

  /** `allFolders` is true iff `foldersToScan` is absent or empty (configInit.py:195-198). */
  lemma AllFoldersIffNoFolders(c: ConfValue, docs: seq<Value>, tzEnv: Option<string>)
    requires Load(c, Present(docs, false), tzEnv).1.Continue?
    ensures var c' := Load(c, Present(docs, false), tzEnv).0;
      c'.allFolders == Some(!Truthy(c'.foldersToScan))
      && (c'.foldersToScan.Null? || c'.foldersToScan.List? ==>
          (c'.allFolders == Some(true) <==> c'.foldersToScan == Null || c'.foldersToScan == List([])))
  {
  }

  /** The field a `general_settings` key sets. */
  function GeneralField(c: ConfValue, key: string): Value {
    if key == "syncthing_container_name" then c.syncthingContainerName
    else if key == "url" then c.url
    else if key == "api_key" then c.apiKey
    else c.foldersToScan
  }

  function Placeholder(key: string): string {
    if key == "syncthing_container_name" then ContainerPlaceholder
    else if key == "url" then UrlPlaceholder
    else ApiKeyPlaceholder
  }

  predicate IsGeneralKey(key: string) {
    key in {"syncthing_container_name", "url", "api_key", "folders_to_scan"}
  }

  /** Entries of a section that carry key `key` only with value `v`. */
  predicate OnlyValue(es: seq<(string, Value)>, key: string, v: Value) {
    forall i :: 0 <= i < |es| && es[i].0 == key ==> es[i].1 == v
  }

  /** A placeholder value leaves its field as it was. */
  lemma {:induction false} PlaceholderLeavesField(c: ConfValue, es: seq<(string, Value)>, key: string)
    requires key in {"syncthing_container_name", "url", "api_key"}
    requires OnlyValue(es, key, Str(Placeholder(key)))
    ensures GeneralField(GeneralEntries(c, es), key) == GeneralField(c, key)
    decreases |es|
  {
    if es != [] {
      var c' := GeneralEntry(c, es[0].0, es[0].1);
      assert GeneralField(c', key) == GeneralField(c, key);
      assert OnlyValue(es[1..], key, Str(Placeholder(key))) by {
        forall i | 0 <= i < |es[1..]| && es[1..][i].0 == key ensures es[1..][i].1 == Str(Placeholder(key)) {
          assert es[1..][i] == es[i + 1];
        }
      }
      PlaceholderLeavesField(c', es[1..], key);
    }
  }

  /** A key the entries do not name. */
  predicate Unnamed(es: seq<(string, Value)>, key: string) {
    forall i :: 0 <= i < |es| ==> es[i].0 != key
  }

  lemma UnnamedTail(es: seq<(string, Value)>, key: string)
    requires es != [] && Unnamed(es, key)
    ensures es[0].0 != key && Unnamed(es[1..], key)
  {
    assert forall i :: 0 <= i < |es[1..]| ==> es[1..][i] == es[i + 1];
  }

  lemma {:induction false} GeneralEntriesKeep(c: ConfValue, es: seq<(string, Value)>, key: string)
    requires IsGeneralKey(key) && Unnamed(es, key)
    ensures GeneralField(GeneralEntries(c, es), key) == GeneralField(c, key)
    decreases |es|
  {
    if es != [] {
      UnnamedTail(es, key);
      GeneralEntriesKeep(GeneralEntry(c, es[0].0, es[0].1), es[1..], key);
    }
  }

  lemma {:induction false} BackupEntriesKeep(c: ConfValue, es: seq<(string, Value)>, key: string)
    requires IsGeneralKey(key)
    ensures GeneralField(BackupEntries(c, es).0, key) == GeneralField(c, key)
    decreases |es|
  {
    if es != [] {
      var (c', f) := BackupEntry(c, es[0].0, es[0].1);
      assert GeneralField(c', key) == GeneralField(c, key);
      if f.Continue? {
        BackupEntriesKeep(c', es[1..], key);
      }
    }
  }

  /** No `general_settings` section of the document names `key`. */
  predicate DocLeaves(doc: Value, key: string) {
    doc.Mapping? ==>
      forall i :: 0 <= i < |doc.entries| && doc.entries[i].0 == "general_settings" && doc.entries[i].1.Mapping?
        ==> Unnamed(doc.entries[i].1.entries, key)
  }

  lemma {:induction false} DocEntriesKeep(c: ConfValue, es: seq<(string, Value)>, key: string)
    requires IsGeneralKey(key) && DocLeaves(Mapping(es), key)
    ensures GeneralField(DocEntries(c, es).0, key) == GeneralField(c, key)
    decreases |es|
  {
    if es != [] {
      var (c', f) := DocEntry(c, es[0].0, es[0].1);
      if es[0].0 == "general_settings" && es[0].1 != Null && es[0].1.Mapping? {
        GeneralEntriesKeep(c, es[0].1.entries, key);
      } else if es[0].0 == "backup_schedule" && es[0].1 != Null && es[0].1.Mapping? {
        BackupEntriesKeep(c, es[0].1.entries, key);
      }
      assert GeneralField(c', key) == GeneralField(c, key);
      if f.Continue? {
        assert DocLeaves(Mapping(es[1..]), key) by {
          forall i | 0 <= i < |es[1..]| && es[1..][i].0 == "general_settings" && es[1..][i].1.Mapping?
            ensures Unnamed(es[1..][i].1.entries, key)
          {
            assert es[1..][i] == es[i + 1];
          }
        }
        DocEntriesKeep(c', es[1..], key);
      }
    }
  }

  /**
   * `conf` is never reset: a general setting that no document names keeps
   * the value it had before `initConfig` ran, whatever else happens.
   */
  lemma {:induction false} UnnamedSettingKept(c: ConfValue, docs: seq<Value>, key: string)
    requires key in {"syncthing_container_name", "url", "api_key", "folders_to_scan"}
    requires forall i :: 0 <= i < |docs| ==> DocLeaves(docs[i], key)
    ensures GeneralField(Documents(c, docs).0, key) == GeneralField(c, key)
    decreases |docs|
  {
    if docs != [] {
      var (c', f) := Document(c, docs[0]);
      if docs[0].Mapping? {
        DocEntriesKeep(c, docs[0].entries, key);
      }
      if f.Continue? {
        UnnamedSettingKept(c', docs[1..], key);
      }
    }
  }

  /** The schedule field of a kind. */
  function ScheduleField(c: ConfValue, kind: ScheduleKind): Option<ConfSchedule> {
    match kind
    case Weekly => c.weeklySchedule
    case Daily => c.dailySchedule
    case LastDayOfMonth => c.lastDayOfMonthSchedule
  }

  /** A `backup_schedule` section whose every entry for kind's key is Null. */
  predicate SectionSkips(es: seq<(string, Value)>, kind: ScheduleKind) {
    forall i :: 0 <= i < |es| && KindOfKey(es[i].0) == Some(kind) ==> es[i].1 == Null
  }

  /** A document none of whose `backup_schedule` sections reads a section for kind. */
  predicate DocSkips(doc: Value, kind: ScheduleKind) {
    doc.Mapping? ==>
      forall i :: 0 <= i < |doc.entries| && doc.entries[i].0 == "backup_schedule" && doc.entries[i].1.Mapping?
        ==> SectionSkips(doc.entries[i].1.entries, kind)
  }

  lemma {:induction false} BackupEntriesKeepSchedule(c: ConfValue, es: seq<(string, Value)>, kind: ScheduleKind)
    requires SectionSkips(es, kind)
    ensures ScheduleField(BackupEntries(c, es).0, kind) == ScheduleField(c, kind)
    decreases |es|
  {
    if es != [] {
      var (c', f) := BackupEntry(c, es[0].0, es[0].1);
      assert ScheduleField(c', kind) == ScheduleField(c, kind);
      if f.Continue? {
        assert forall i :: 0 <= i < |es[1..]| ==> es[1..][i] == es[i + 1];
        BackupEntriesKeepSchedule(c', es[1..], kind);
      }
    }
  }

  lemma {:induction false} DocEntriesKeepSchedule(c: ConfValue, es: seq<(string, Value)>, kind: ScheduleKind)
    requires DocSkips(Mapping(es), kind)
    ensures ScheduleField(DocEntries(c, es).0, kind) == ScheduleField(c, kind)
    decreases |es|
  {
    if es != [] {
      var (c', f) := DocEntry(c, es[0].0, es[0].1);
      if es[0].0 == "general_settings" && es[0].1 != Null && es[0].1.Mapping? {
        GeneralEntriesSchedules(c, es[0].1.entries);
      } else if es[0].0 == "backup_schedule" && es[0].1 != Null && es[0].1.Mapping? {
        BackupEntriesKeepSchedule(c, es[0].1.entries, kind);
      }
      assert ScheduleField(c', kind) == ScheduleField(c, kind);
      if f.Continue? {
        assert DocSkips(Mapping(es[1..]), kind) by {
          forall i | 0 <= i < |es[1..]| && es[1..][i].0 == "backup_schedule" && es[1..][i].1.Mapping?
            ensures SectionSkips(es[1..][i].1.entries, kind)
          {
            assert es[1..][i] == es[i + 1];
          }
        }
        DocEntriesKeepSchedule(c', es[1..], kind);
      }
    }
  }

  /**
   * A schedule section read through replaces its schedule whole: it is
   * built from the empty schedule, so what it stores does not depend on
   * the schedule held before (configInit.py:121, 146, 163).
   */
  lemma SectionReplacesSchedule(c1: ConfValue, c2: ConfValue, key: string, val: Value)
    requires KindOfKey(key).Some? && val.Mapping?
    requires BackupEntry(c1, key, val).1.Continue?
    ensures BackupEntry(c2, key, val).1.Continue?
    ensures ScheduleField(BackupEntry(c1, key, val).0, KindOfKey(key).value)
            == ScheduleField(BackupEntry(c2, key, val).0, KindOfKey(key).value)
            == Some(ScheduleEntries(KindOfKey(key).value, EmptySchedule, val.entries).0)
  {
  }

  /**
   * The schedules carry over the same way: a schedule whose section no
   * document reads keeps the value it had before `initConfig` ran, so a
   * schedule removed from the file stays set from an earlier call.
   */
  lemma {:induction false} UnreadScheduleKept(c: ConfValue, docs: seq<Value>, kind: ScheduleKind)
    requires forall i :: 0 <= i < |docs| ==> DocSkips(docs[i], kind)
    ensures ScheduleField(Documents(c, docs).0, kind) == ScheduleField(c, kind)
    decreases |docs|
  {
    if docs != [] {
      var (c', f) := Document(c, docs[0]);
      if docs[0].Mapping? {
        DocEntriesKeepSchedule(c, docs[0].entries, kind);
      }
      if f.Continue? {
        var later := docs[1..];
        assert forall i :: 0 <= i < |later| ==> later[i] == docs[i + 1];
        UnreadScheduleKept(c', later, kind);
      }
    }
  }

  // ---------------------------------------------------------------------------
  // The last write of a general setting wins (configInit.py:104-115)
  // ---------------------------------------------------------------------------

  /** Whether a `general_settings` entry for key sets its field; a placeholder does not. */
  predicate Assigns(key: string, val: Value) {
    key == "folders_to_scan" || val != Str(Placeholder(key))
  }

  /** Entries none of which assigns key leave its field as it was. */
  lemma {:induction false} UnassignedKept(c: ConfValue, es: seq<(string, Value)>, key: string)
    requires IsGeneralKey(key)
    requires forall j :: 0 <= j < |es| && es[j].0 == key ==> !Assigns(key, es[j].1)
    ensures GeneralField(GeneralEntries(c, es), key) == GeneralField(c, key)
    decreases |es|
  {
    if es != [] {
      assert forall j :: 0 <= j < |es[1..]| ==> es[1..][j] == es[j + 1];
      UnassignedKept(GeneralEntry(c, es[0].0, es[0].1), es[1..], key);
    }
  }

  /**
   * Within one `general_settings` section, the last entry that assigns key
   * decides the field: it ends as that entry's value.
   */
  lemma {:induction false} LastAssignmentWins(c: ConfValue, es: seq<(string, Value)>, key: string, i: nat)
    requires IsGeneralKey(key)
    requires i < |es| && es[i].0 == key && Assigns(key, es[i].1)
    requires forall j :: i < j < |es| && es[j].0 == key ==> !Assigns(key, es[j].1)
    ensures GeneralField(GeneralEntries(c, es), key) == es[i].1
    decreases i
  {
    var c' := GeneralEntry(c, es[0].0, es[0].1);
    assert forall j :: 0 <= j < |es[1..]| ==> es[1..][j] == es[j + 1];
    if i == 0 {
      assert GeneralField(c', key) == es[0].1;
      UnassignedKept(c', es[1..], key);
    } else {
      LastAssignmentWins(c', es[1..], key, i - 1);
    }
  }

  /** A document's entries after a prefix that continues: the walk goes on from where the prefix left it. */
  lemma {:induction false} DocEntriesSplit(c: ConfValue, a: seq<(string, Value)>, b: seq<(string, Value)>)
    requires DocEntries(c, a).1.Continue?
    ensures DocEntries(c, a + b) == DocEntries(DocEntries(c, a).0, b)
    decreases |a|
  {
    if a == [] {
      assert a + b == b;
    } else {
      assert (a + b)[0] == a[0] && (a + b)[1..] == a[1..] + b;
      DocEntriesSplit(DocEntry(c, a[0].0, a[0].1).0, a[1..], b);
    }
  }

  /** The documents after a prefix that continues: the walk goes on from where the prefix left it. */
  lemma {:induction false} DocumentsSplit(c: ConfValue, a: seq<Value>, b: seq<Value>)
    requires Documents(c, a).1.Continue?
    ensures Documents(c, a + b) == Documents(Documents(c, a).0, b)
    decreases |a|
  {
    if a == [] {
      assert a + b == b;
    } else {
      assert (a + b)[0] == a[0] && (a + b)[1..] == a[1..] + b;
      DocumentsSplit(Document(c, a[0]).0, a[1..], b);
    }
  }

  /**
   * Within one document, a `general_settings` section that no later section
   * of the document names key after decides the field, once the entries
   * before it have been read through.
   */
  lemma LastSectionDecides(c: ConfValue, es: seq<(string, Value)>, key: string, i: nat)
    requires IsGeneralKey(key)
    requires i < |es| && es[i].0 == "general_settings" && es[i].1.Mapping?
    requires DocEntries(c, es[..i]).1.Continue?
    requires DocLeaves(Mapping(es[i + 1..]), key)
    ensures GeneralField(DocEntries(c, es).0, key)
            == GeneralField(GeneralEntries(DocEntries(c, es[..i]).0, es[i].1.entries), key)
  {
    assert es == es[..i] + es[i..];
    DocEntriesSplit(c, es[..i], es[i..]);
    var ci := DocEntries(c, es[..i]).0;
    assert es[i..][0] == es[i] && es[i..][1..] == es[i + 1..];
    DocEntriesKeep(GeneralEntries(ci, es[i].1.entries), es[i + 1..], key);
  }

  /**
   * Over the documents, the last document that names key decides it: when
   * the walk reaches document i and no later document names key, the field
   * ends as document i leaves it.
   */
  lemma LastDocumentDecides(c: ConfValue, docs: seq<Value>, key: string, i: nat)
    requires IsGeneralKey(key)
    requires i < |docs|
    requires Documents(c, docs[..i]).1.Continue?
    requires forall j :: i < j < |docs| ==> DocLeaves(docs[j], key)
    ensures GeneralField(Documents(c, docs).0, key) == GeneralField(Document(Documents(c, docs[..i]).0, docs[i]).0, key)
  {
    assert docs == docs[..i] + docs[i..];
    DocumentsSplit(c, docs[..i], docs[i..]);
    var ci := Documents(c, docs[..i]).0;
    var rest := docs[i..];
    assert rest[0] == docs[i] && rest[1..] == docs[i + 1..];
    var (c', f) := Document(ci, docs[i]);
    if f.Continue? {
      var later := docs[i + 1..];
      assert forall j :: 0 <= j < |later| ==> later[j] == docs[i + 1 + j];
      UnnamedSettingKept(c', later, key);
    }
  }

  /**
   * Last writer wins: when the walk reaches entry m of section k of
   * document i, that entry assigns key, and nothing after it in the
   * section, the document or the later documents does, the field ends as
   * that entry's value.
   */
  lemma LastWriterWins(c: ConfValue, docs: seq<Value>, key: string, i: nat, k: nat, m: nat)
    requires IsGeneralKey(key)
    requires i < |docs| && docs[i].Mapping?
    requires Documents(c, docs[..i]).1.Continue?
    requires forall j :: i < j < |docs| ==> DocLeaves(docs[j], key)
    requires k < |docs[i].entries| && docs[i].entries[k].0 == "general_settings" && docs[i].entries[k].1.Mapping?
    requires DocEntries(Documents(c, docs[..i]).0, docs[i].entries[..k]).1.Continue?
    requires DocLeaves(Mapping(docs[i].entries[k + 1..]), key)
    requires m < |docs[i].entries[k].1.entries|
    requires docs[i].entries[k].1.entries[m].0 == key && Assigns(key, docs[i].entries[k].1.entries[m].1)
    requires forall j :: m < j < |docs[i].entries[k].1.entries| && docs[i].entries[k].1.entries[j].0 == key
               ==> !Assigns(key, docs[i].entries[k].1.entries[j].1)
    ensures GeneralField(Documents(c, docs).0, key) == docs[i].entries[k].1.entries[m].1
  {
    LastDocumentDecides(c, docs, key, i);
    var ci := Documents(c, docs[..i]).0;
    LastSectionDecides(ci, docs[i].entries, key, k);
    LastAssignmentWins(DocEntries(ci, docs[i].entries[..k]).0, docs[i].entries[k].1.entries, key, m);
  }

  /** The configured days are already upper case. */
  lemma UpperOfDayName(w: nat)
    requires w < 7
    ensures Upper(DayNames[w]) == DayNames[w]
  {
  }

  /**
   * The two day checks on a string d whose upper-cased form names weekday
   * w: the last-day-of-month check takes d as written, whatever its letter
   * case, while the weekly check takes d only when it is spelt exactly
   * DayNames[w] and otherwise exits with the weekly bad-day message.
   */
  lemma DayChecksCompared(s: ConfSchedule, d: string, w: nat)
    requires w < 7 && Upper(d) == DayNames[w]
    ensures ScheduleEntry(LastDayOfMonth, s, "day", Str(d)) == (s.(day := Some(d)), Continue)
    ensures ScheduleEntry(Weekly, s, "day", Str(d)).1.Continue? <==> d == DayNames[w]
    ensures d != DayNames[w] ==> ScheduleEntry(Weekly, s, "day", Str(d)) == (s, Exit(WeeklyBadDay))
  {
    if d in DayNames {
      var w' :| 0 <= w' < 7 && DayNames[w'] == d;
      UpperOfDayName(w');
    }
  }

  /** Every day value the weekly check accepts, the last-day-of-month check accepts with the same result. */
  lemma WeeklyDaysPassLastDay(s: ConfSchedule, val: Value)
    requires ScheduleEntry(Weekly, s, "day", val).1.Continue?
    ensures ScheduleEntry(LastDayOfMonth, s, "day", val) == ScheduleEntry(Weekly, s, "day", val)
  {
    var w :| 0 <= w < 7 && DayNames[w] == val.s;
    UpperOfDayName(w);
  }

  /** "mon" is a valid last-day-of-month day and an invalid weekly one. */
  lemma DayCheckCaseDiffers(s: ConfSchedule)
    ensures ScheduleEntry(LastDayOfMonth, s, "day", Str("mon")) == (s.(day := Some("mon")), Continue)
    ensures ScheduleEntry(Weekly, s, "day", Str("mon")) == (s, Exit(WeeklyBadDay))
  {
    assert Upper("mon") == "MON";
    DayChecksCompared(s, "mon", 0);
  }

  /**
   * A time entry continues, storing its `str()` with hour t.hour and
   * minute t.minute, exactly when t is a valid time of day and that text
   * is one of the spellings of t.
   */
  lemma TimeEntryExact(kind: ScheduleKind, s: ConfSchedule, val: Value, t: HourMinute)
    ensures ScheduleEntry(kind, s, "time", val)
            == (s.(time := Some(Render(val)), hour := Some(t.hour), minute := Some(t.minute)), Continue)
            <==> t.hour < 24 && t.minute < 60 && Render(val) in Spellings(t)
  {
    ExtractHourAndMinuteExact(Render(val), t);
  }

  /** A time entry that spells no valid time leaves the schedule as it was and exits with the bad-time message. */
  lemma TimeEntryRejected(kind: ScheduleKind, s: ConfSchedule, val: Value)
    requires forall t: HourMinute :: t.hour < 24 && t.minute < 60 ==> Render(val) !in Spellings(t)
    ensures ScheduleEntry(kind, s, "time", val) == (s, Exit(BadTime(kind)))
  {
    var r := ExtractHourAndMinute(Render(val));
    if r.Some? {
      ExtractHourAndMinuteExact(Render(val), r.value);
      assert false;
    }
  }

  /** Only a string can pass the time check: `str()` of anything else has no "H:M" shape. */
  lemma OnlyStringsAreTimes(val: Value)
    requires IsTimeFormat(Render(val))
    ensures val.Str?
  {
  }

  /** A day accepted for its kind of schedule. */
  predicate ValidDay(kind: ScheduleKind, d: string) {
    if kind == Weekly then d in DayNames else Upper(d) in DayNames
  }

  /**
   * What every schedule the walk stores satisfies: a valid day if it has
   * one, and time, hour and minute set together, hour and minute being what
   * the time text spells.
   */
  predicate WellFormedSchedule(kind: ScheduleKind, s: ConfSchedule) {
    && (s.day.Some? ==> ValidDay(kind, s.day.value))
    && (s.time.Some? <==> s.hour.Some?)
    && (s.hour.Some? <==> s.minute.Some?)
    && (s.time.Some? ==> ExtractHourAndMinute(s.time.value) == Some(HourMinute(s.hour.value, s.minute.value)))
    && (kind == Daily ==> s.day.None?)
  }

  predicate WellFormed(c: ConfValue) {
    && (c.weeklySchedule.Some? ==> WellFormedSchedule(Weekly, c.weeklySchedule.value))
    && (c.dailySchedule.Some? ==> WellFormedSchedule(Daily, c.dailySchedule.value))
    && (c.lastDayOfMonthSchedule.Some? ==> WellFormedSchedule(LastDayOfMonth, c.lastDayOfMonthSchedule.value))
  }

  lemma {:induction false} ScheduleEntriesWellFormed(kind: ScheduleKind, s: ConfSchedule, es: seq<(string, Value)>)
    requires WellFormedSchedule(kind, s)
    ensures WellFormedSchedule(kind, ScheduleEntries(kind, s, es).0)
    decreases |es|
  {
    if es != [] {
      var (s', f) := ScheduleEntry(kind, s, es[0].0, es[0].1);
      if f.Continue? {
        ScheduleEntriesWellFormed(kind, s', es[1..]);
      }
    }
  }

  lemma {:induction false} BackupEntriesWellFormed(c: ConfValue, es: seq<(string, Value)>)
    requires WellFormed(c)
    ensures WellFormed(BackupEntries(c, es).0)
    decreases |es|
  {
    if es != [] {
      var key, val := es[0].0, es[0].1;
      if KindOfKey(key).Some? && val.Mapping? {
        ScheduleEntriesWellFormed(KindOfKey(key).value, EmptySchedule, val.entries);
      }
      var (c', f) := BackupEntry(c, key, val);
      if f.Continue? {
        BackupEntriesWellFormed(c', es[1..]);
      }
    }
  }

  lemma GeneralEntriesSchedules(c: ConfValue, es: seq<(string, Value)>)
    ensures var c' := GeneralEntries(c, es);
      c'.weeklySchedule == c.weeklySchedule && c'.dailySchedule == c.dailySchedule
      && c'.lastDayOfMonthSchedule == c.lastDayOfMonthSchedule
    decreases |es|
  {
    if es != [] {
      GeneralEntriesSchedules(GeneralEntry(c, es[0].0, es[0].1), es[1..]);
    }
  }

  lemma {:induction false} DocEntriesWellFormed(c: ConfValue, es: seq<(string, Value)>)
    requires WellFormed(c)
    ensures WellFormed(DocEntries(c, es).0)
    decreases |es|
  {
    if es != [] {
      var key, val := es[0].0, es[0].1;
      if val.Mapping? {
        GeneralEntriesSchedules(c, val.entries);
        BackupEntriesWellFormed(c, val.entries);
      }
      var (c', f) := DocEntry(c, key, val);
      if f.Continue? {
        DocEntriesWellFormed(c', es[1..]);
      }
    }
  }

  lemma {:induction false} DocumentsWellFormed(c: ConfValue, docs: seq<Value>)
    requires WellFormed(c)
    ensures WellFormed(Documents(c, docs).0)
    decreases |docs|
  {
    if docs != [] {
      if docs[0].Mapping? {
        DocEntriesWellFormed(c, docs[0].entries);
      }
      var (c', f) := Document(c, docs[0]);
      if f.Continue? {
        DocumentsWellFormed(c', docs[1..]);
      }
    }
  }

  /** A configuration ready for the scheduler: what `initConfig` returns. */
  predicate Ready(c: ConfValue) {
    WellFormed(c) && Complete(c) && c.allFolders.Some? && c.tz.Some?
  }

  /** `initConfig` returns only a configuration that passed every check, and keeps the walk's invariant on exit too. */
  lemma LoadReady(c: ConfValue, file: ConfigFile, tzEnv: Option<string>)
    requires WellFormed(c)
    ensures WellFormed(Load(c, file, tzEnv).0)
    ensures Load(c, file, tzEnv).1.Continue? ==> Ready(Load(c, file, tzEnv).0)
  {
    if file.Present? {
      DocumentsWellFormed(c, file.docs);
    }
  }

  /**
   * The invalid-day messages hold an apostrophe ("schedule's"), so their
   * update_db raises and the handler records "not a valid yml file" instead.
   */
  lemma BadDayRecordsNotValidYml(kind: ScheduleKind, ts: string)
    requires kind != Daily && NoQuote(ts)
    ensures Finish(Exit(BadDay(kind)), true, ts) == Exited(500, NotValidYml)
  {
    BadDayHasQuote();
  }

  /** A failed mandatory check is recorded with its own message. */
  lemma CheckExitRecorded(m: MandatoryCheck, ts: string)
    requires NoQuote(ts)
    ensures Finish(Exit(CheckMessage(m)), true, ts) == Exited(500, CheckMessage(m))
  {
  }

  /** An invalid time is recorded with its own message. */
  lemma BadTimeRecorded(kind: ScheduleKind, ts: string)
    requires NoQuote(ts)
    ensures Finish(Exit(BadTime(kind)), true, ts) == Exited(500, BadTime(kind))
  {
    match kind
    case Weekly => WeeklyBadTimeQuoteFree();
    case Daily => DailyBadTimeQuoteFree();
    case LastDayOfMonth => LastDayBadTimeQuoteFree();
  }

  /** A missing TZ is recorded with its own message. */
  lemma TzExitRecorded(ts: string)
    requires NoQuote(ts)
    ensures Finish(Exit(TzMissing), true, ts) == Exited(500, TzMissing)
  {
    TzMissingQuoteFree();
  }

  /** A missing config.yml is recorded with its own message. */
  lemma FileExitRecorded(ts: string)
    requires NoQuote(ts)
    ensures Finish(Exit(FileNotFound), true, ts) == Exited(500, FileNotFound)
  {
    FileNotFoundQuoteFree();
  }

  // ---------------------------------------------------------------------------
  // The walk as the source runs it: loops that update the fields
  // ---------------------------------------------------------------------------

  /** The loop over one schedule section's items (configInit.py:121-141 and its daily and last-day twins). */
  method BuildSchedule(kind: ScheduleKind, es: seq<(string, Value)>) returns (s: ConfSchedule, f: Flow)
    ensures (s, f) == ScheduleEntries(kind, EmptySchedule, es)
  {
    s, f := EmptySchedule, Continue;
    var i := 0;
    while i < |es|
      invariant 0 <= i <= |es|
      invariant ScheduleEntries(kind, s, es[i..]) == ScheduleEntries(kind, EmptySchedule, es)
    {
      assert es[i..][1..] == es[i + 1..];
      var key, val := es[i].0, es[i].1;
      if key == "day" && kind == Weekly {
        if val.Str? && val.s in DayNames {
          s := s.(day := Some(val.s));
        } else {
          return s, Exit(BadDay(kind));
        }
      } else if key == "day" && kind == LastDayOfMonth {
        if !val.Str? {
          return s, Raise;
        }
        if Upper(val.s) in DayNames {
          s := s.(day := Some(val.s));
        } else {
          return s, Exit(BadDay(kind));
        }
      } else if key == "time" {
        var text := Render(val);
        var parsed := ExtractHourAndMinute(text);
        if parsed.Some? {
          s := s.(time := Some(text), hour := Some(parsed.value.hour), minute := Some(parsed.value.minute));
        } else {
          return s, Exit(BadTime(kind));
        }
      }
      i := i + 1;
    }
  }

  /** The module-level `conf`. */
  class Conf {
    var syncthingContainerName: Value
    var url: Value
    var apiKey: Value
    var foldersToScan: Value
    var allFolders: Option<bool>
    var weeklySchedule: Option<ConfSchedule>
    var dailySchedule: Option<ConfSchedule>
    var lastDayOfMonthSchedule: Option<ConfSchedule>
    var tz: Option<string>

    function Value(): ConfValue
      reads this
    {
      ConfValue(syncthingContainerName, url, apiKey, foldersToScan, allFolders,
                weeklySchedule, dailySchedule, lastDayOfMonthSchedule, tz)
    }

    /** `conf = Config(None, ..., None)` at import. */
    constructor ()
      ensures Value() == Unset
    {
      syncthingContainerName, url, apiKey, foldersToScan := Null, Null, Null, Null;
      allFolders := None;
      weeklySchedule, dailySchedule, lastDayOfMonthSchedule := None, None, None;
      tz := None;
    }

    /** The loop over `general_settings` (configInit.py:107-115). */
    method ApplyGeneralSettings(es: seq<(string, Value)>)
      modifies this
      ensures Value() == GeneralEntries(old(Value()), es)
    {
      var i := 0;
      while i < |es|
        invariant 0 <= i <= |es|
        invariant GeneralEntries(Value(), es[i..]) == GeneralEntries(old(Value()), es)
      {
        assert es[i..][1..] == es[i + 1..];
        var key, val := es[i].0, es[i].1;
        if key == "syncthing_container_name" && val != Str(ContainerPlaceholder) {
          syncthingContainerName := val;
        } else if key == "url" && val != Str(UrlPlaceholder) {
          url := val;
        } else if key == "api_key" && val != Str(ApiKeyPlaceholder) {
          apiKey := val;
        } else if key == "folders_to_scan" {
          foldersToScan := val;
        }
        i := i + 1;
      }
    }

    /** The loop over `backup_schedule` (configInit.py:119-185). */
    method ApplyBackupSchedule(es: seq<(string, Value)>) returns (f: Flow)
      modifies this
      ensures (Value(), f) == BackupEntries(old(Value()), es)
    {
      var i := 0;
      while i < |es|
        invariant 0 <= i <= |es|
        invariant BackupEntries(Value(), es[i..]) == BackupEntries(old(Value()), es)
      {
        assert es[i..][1..] == es[i + 1..];
        var key, val := es[i].0, es[i].1;
        var kind := KindOfKey(key);
        if kind.Some? && val != Null {
          if !val.Mapping? {
            return Raise;
          }
          var s, sf := BuildSchedule(kind.value, val.entries);
          if !sf.Continue? {
            return sf;
          }
          match kind.value
          case Weekly => weeklySchedule := Some(s);
          case Daily => dailySchedule := Some(s);
          case LastDayOfMonth => lastDayOfMonthSchedule := Some(s);
        }
        i := i + 1;
      }
      f := Continue;
    }

    /** The loop over one document's items (configInit.py:105-185). */
    method ApplyDocument(doc: Value) returns (f: Flow)
      modifies this
      ensures (Value(), f) == Document(old(Value()), doc)
    {
      if !doc.Mapping? {
        return Raise;
      }
      var es := doc.entries;
      var i := 0;
      while i < |es|
        invariant 0 <= i <= |es|
        invariant DocEntries(Value(), es[i..]) == DocEntries(old(Value()), es)
      {
        assert es[i..][1..] == es[i + 1..];
        var key, val := es[i].0, es[i].1;
        if key == "general_settings" && val != Null {
          if !val.Mapping? {
            return Raise;
          }
          ApplyGeneralSettings(val.entries);
        } else if key == "backup_schedule" && val != Null {
          if !val.Mapping? {
            return Raise;
          }
          var bf := ApplyBackupSchedule(val.entries);
          if !bf.Continue? {
            return bf;
          }
        }
        i := i + 1;
      }
      f := Continue;
    }

    /**
     * `initConfig`: walk the documents, read TZ, derive `allFolders`, check
     * the mandatory fields, and on any exit record the 500 in the store.
     */
    method InitConfig(store: SqliteDB.OutcomeStore, file: ConfigFile, tzEnv: Option<string>, ts: string)
        returns (r: InitOutcome)
      modifies this, store
      ensures Value() == Load(old(Value()), file, tzEnv).0
      ensures r == Finish(Load(old(Value()), file, tzEnv).1, old(store.tableExists), ts)
      ensures store.tableExists == old(store.tableExists)
      ensures r.Exited? ==> store.rows == SqliteDB.Written(old(store.rows), 500, r.msg, ts)
      ensures !r.Exited? ==> store.rows == old(store.rows)
    {
      var f := Continue;
      if file.Missing? {
        f := Exit(FileNotFound);
      } else {
        var docs := file.docs;
        var i := 0;
        while i < |docs| && f.Continue?
          invariant 0 <= i <= |docs|
          invariant f.Continue? ==> Documents(Value(), docs[i..]) == Documents(old(Value()), docs)
          invariant !f.Continue? ==> (Value(), f) == Documents(old(Value()), docs)
          invariant store.tableExists == old(store.tableExists) && store.rows == old(store.rows)
        {
          assert docs[i..][1..] == docs[i + 1..];
          f := ApplyDocument(docs[i]);
          i := i + 1;
        }
        if f.Continue? && file.malformedTail {
          f := Raise;
        } else if f.Continue? {
          if tzEnv.None? {
            f := Exit(TzMissing);
          } else {
            tz := tzEnv;
            allFolders := Some(!Truthy(foldersToScan));
            var failing := FirstFailingCheck(Value());
            if failing.Some? {
              f := Exit(CheckMessage(failing.value));
            }
          }
        }
      }
      r := RecordExit(store, f, ts);
    }
  }

  /** The write or writes that accompany an exit. */
  method RecordExit(store: SqliteDB.OutcomeStore, f: Flow, ts: string) returns (r: InitOutcome)
    modifies store
    ensures r == Finish(f, old(store.tableExists), ts)
    ensures store.tableExists == old(store.tableExists)
    ensures r.Exited? ==> store.rows == SqliteDB.Written(old(store.rows), 500, r.msg, ts)
    ensures !r.Exited? ==> store.rows == old(store.rows)
  {
    if f.Continue? {
      return Loaded;
    }
    var err: Option<SqliteDB.DbError> := Some(SqliteDB.SyntaxError);
    if f.Exit? {
      err := store.UpdateDb(500, f.msg, ts);
      if err.None? {
        return Exited(500, f.msg);
      }
    }
    // The handler at configInit.py:210-214.
    NotValidYmlQuoteFree();
    err := store.UpdateDb(500, NotValidYml, ts);
    if err.None? {
      r := Exited(500, NotValidYml);
    } else {
      r := Crashed(err.value);
    }
  }
}
