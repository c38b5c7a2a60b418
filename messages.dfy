/**
 * The fixed texts configInit.py writes to the outcome table before it
 * exits, pieced together from short literals.
 *
 * update_db splices its message into an SQL literal, so a message holding
 * a `'` cannot be written. Each lemma below shows that a message holds
 * none, piece by piece.
 */
module Messages {
  import opened Util

  const ContainerPlaceholder := "<INSERT YOUR SYNCTHING " + "CONTAINER NAME HERE>"
  const UrlPlaceholder := "<INSERT YOUR SYNCTHING " + "GUI URL>"
  const ApiKeyPlaceholder := "<INSERT YOUR SYNCTHING " + "API KEY>"

  const MustBeInputted := " must be inputted!"
  const ContainerMissing := "ERROR: Name of the " + "Syncthing container" + MustBeInputted
  const UrlMissing := "ERROR: Url of the " + "Syncthing GUI" + MustBeInputted
  const ApiKeyMissing := "ERROR: API KEY of the " + "Syncthing service" + MustBeInputted
  const NoSchedule := "ERROR: At least one " + "backup schedule must " + "be setup in order for " +
    "the script to work!"
  const TimeAndDay := " Schedule must have " + "TIME and DAY setup!"
  const WeeklyIncomplete := "ERROR: Weekly" + TimeAndDay
  const LastDayIncomplete := "ERROR: Last Day Of Month" + TimeAndDay
  const DailyIncomplete := "ERROR: Daily Schedule " + "must have TIME field " + "setup!"

  const DayNamesHint := " is not set properly - " + "Please use MON, TUE, " + "WED, THU, FRI, SAT or " +
    "SUN to specify the day."
  const WeeklyBadDay := "ERROR: Weekly " + "schedule's day" + DayNamesHint
  const LastDayBadDay := "ERROR: Last Day Of " + "Month schedule's day" + DayNamesHint
  const TimeHint := " time format is not " + "valid! Please use HH:mm " + "format!"
  const WeeklyBadTime := "ERROR: Weekly" + TimeHint
  const DailyBadTime := "ERROR: Daily" + TimeHint
  const LastDayBadTime := "ERROR: Last Day Of Month" + TimeHint

  const TzMissing := "ERROR: Timezone is not " + "set in the docker run " + "command/compose. You " +
    "need to have it set in " + "order for the sync to " + "be executed on time."
  const FileNotFound := "ERROR: config.yml file " + "not found (please bind " + "the volume that " +
    "contains the config.yml " + "file)"
  const NotValidYml := "ERROR: config.yml file " + "is not a valid yml file"

  /** Both invalid-day messages say "schedule's", with a `'`. */
  lemma BadDayHasQuote()
    ensures !NoQuote(WeeklyBadDay) && !NoQuote(LastDayBadDay)
  {
    assert '\'' in "schedule's day" && '\'' in "Month schedule's day";
  }

  lemma MustBeInputtedQuoteFree()
    ensures NoQuote(MustBeInputted)
  {
  }

  lemma TimeAndDayQuoteFree()
    ensures NoQuote(TimeAndDay)
  {
    NoQuoteConcat(" Schedule must have ", "TIME and DAY setup!");
  }

  lemma TimeHintQuoteFree()
    ensures NoQuote(TimeHint)
  {
    NoQuoteConcat(" time format is not ", "valid! Please use HH:mm ");
    NoQuoteConcat(" time format is not " + "valid! Please use HH:mm ", "format!");
  }

  lemma ContainerMissingQuoteFree()
    ensures NoQuote(ContainerMissing)
  {
    MustBeInputtedQuoteFree();
    NoQuoteConcat("ERROR: Name of the ", "Syncthing container");
    NoQuoteConcat("ERROR: Name of the " + "Syncthing container", MustBeInputted);
  }

  lemma UrlMissingQuoteFree()
    ensures NoQuote(UrlMissing)
  {
    MustBeInputtedQuoteFree();
    NoQuoteConcat("ERROR: Url of the ", "Syncthing GUI");
    NoQuoteConcat("ERROR: Url of the " + "Syncthing GUI", MustBeInputted);
  }

  lemma ApiKeyMissingQuoteFree()
    ensures NoQuote(ApiKeyMissing)
  {
    MustBeInputtedQuoteFree();
    NoQuoteConcat("ERROR: API KEY of the ", "Syncthing service");
    NoQuoteConcat("ERROR: API KEY of the " + "Syncthing service", MustBeInputted);
  }

  lemma NoScheduleQuoteFree()
    ensures NoQuote(NoSchedule)
  {
    NoQuoteConcat("ERROR: At least one ", "backup schedule must ");
    NoQuoteConcat("ERROR: At least one " + "backup schedule must ", "be setup in order for ");
    NoQuoteConcat("ERROR: At least one " + "backup schedule must " + "be setup in order for ", "the script to work!");
  }

  lemma WeeklyIncompleteQuoteFree()
    ensures NoQuote(WeeklyIncomplete)
  {
    TimeAndDayQuoteFree();
    NoQuoteConcat("ERROR: Weekly", TimeAndDay);
  }

  lemma LastDayIncompleteQuoteFree()
    ensures NoQuote(LastDayIncomplete)
  {
    TimeAndDayQuoteFree();
    NoQuoteConcat("ERROR: Last Day Of Month", TimeAndDay);
  }

  lemma DailyIncompleteQuoteFree()
    ensures NoQuote(DailyIncomplete)
  {
    NoQuoteConcat("ERROR: Daily Schedule ", "must have TIME field ");
    NoQuoteConcat("ERROR: Daily Schedule " + "must have TIME field ", "setup!");
  }

  lemma WeeklyBadTimeQuoteFree()
    ensures NoQuote(WeeklyBadTime)
  {
    TimeHintQuoteFree();
    NoQuoteConcat("ERROR: Weekly", TimeHint);
  }

  lemma DailyBadTimeQuoteFree()
    ensures NoQuote(DailyBadTime)
  {
    TimeHintQuoteFree();
    NoQuoteConcat("ERROR: Daily", TimeHint);
  }

  lemma LastDayBadTimeQuoteFree()
    ensures NoQuote(LastDayBadTime)
  {
    TimeHintQuoteFree();
    NoQuoteConcat("ERROR: Last Day Of Month", TimeHint);
  }

  lemma TzMissingQuoteFree()
    ensures NoQuote(TzMissing)
  {
    TzHeadQuoteFree();
    NoQuoteConcat("ERROR: Timezone is not " + "set in the docker run " + "command/compose. You ", "need to have it set in ");
    NoQuoteConcat("ERROR: Timezone is not " + "set in the docker run " + "command/compose. You " + "need to have it set in ", "order for the sync to ");
    NoQuoteConcat("ERROR: Timezone is not " + "set in the docker run " + "command/compose. You " + "need to have it set in " + "order for the sync to ", "be executed on time.");
  }

  lemma TzHeadQuoteFree()
    ensures NoQuote("ERROR: Timezone is not " + "set in the docker run " + "command/compose. You ")
  {
    NoQuoteConcat("ERROR: Timezone is not ", "set in the docker run ");
    NoQuoteConcat("ERROR: Timezone is not " + "set in the docker run ", "command/compose. You ");
  }

  lemma FileNotFoundQuoteFree()
    ensures NoQuote(FileNotFound)
  {
    NoQuoteConcat("ERROR: config.yml file ", "not found (please bind ");
    NoQuoteConcat("ERROR: config.yml file " + "not found (please bind ", "the volume that ");
    NoQuoteConcat("ERROR: config.yml file " + "not found (please bind " + "the volume that ", "contains the config.yml ");
    NoQuoteConcat("ERROR: config.yml file " + "not found (please bind " + "the volume that " + "contains the config.yml ", "file)");
  }

  lemma NotValidYmlQuoteFree()
    ensures NoQuote(NotValidYml)
  {
    NoQuoteConcat("ERROR: config.yml file ", "is not a valid yml file");
  }
}
