/**
  The checks the script applies to its settings: the logger severity
  (initialize_logger and the DEBUG switch at start-up) and the language
  used for weather-code texts (weather2mqtt.py).
 */
module Settings {
  import opened Results
  import opened Strings

  // Python's logging levels; FATAL is another name for CRITICAL.
  const NOTSET: int := 0
  const DEBUG: int := 10
  const INFO: int := 20
  const WARNING: int := 30
  const ERROR: int := 40
  const CRITICAL: int := 50
  const FATAL: int := CRITICAL

  /** The levels initialize_logger accepts. */
  const VALID_SEVERITIES: seq<int> := [DEBUG, INFO, WARNING, ERROR, CRITICAL]

  /** The root logger, reduced to the level it is set to. */
  datatype RootLogger = RootLogger(level: int)

  /** initialize_logger: a ValueError for any severity other than the five
      standard levels (the multiples of 10 from 10 to 50), otherwise a logger
      at that level. */
  function InitializeLogger(severity: int): (r: Result<RootLogger, Failure>)
    ensures r.Ok? <==> 10 <= severity <= 50 && severity % 10 == 0
    ensures r.Ok? ==> r.value.level == severity
    ensures r.Err? ==> r.error == ValueError
  {
    if severity in VALID_SEVERITIES then Ok(RootLogger(severity)) else Err(ValueError)
  }

  /** The cases the script's tests check, and NOTSET, which is refused. */
  lemma TestedSeverities()
    ensures InitializeLogger(INFO) == Ok(RootLogger(INFO))
    ensures InitializeLogger(DEBUG) == Ok(RootLogger(DEBUG))
    ensures InitializeLogger(FATAL) == Ok(RootLogger(FATAL))
    ensures InitializeLogger(NOTSET).Err?
  {
  }

  /** The level the script starts with: DEBUG when the DEBUG environment
      variable is "true" in any letter case, INFO otherwise (unset counts
      as "false"). */
  function StartupSeverity(debugSetting: Option<string>): (level: int)
    ensures level == DEBUG <==> debugSetting.Some? && Lower(debugSetting.value) == "true"
    ensures level == DEBUG || level == INFO
  {
    var setting := if debugSetting.Some? then debugSetting.value else "false";
    if Lower(setting) == "true" then DEBUG else INFO
  }

  /** The logger set up at start-up never raises. */
  lemma StartupLoggerSucceeds(debugSetting: Option<string>)
    ensures InitializeLogger(StartupSeverity(debugSetting)).Ok?
  {
  }

  /** The default language of the weather-code texts. */
  const DEFAULT_LANGUAGE: string := "en"

  /** WEATHER_CODE_LANGUAGE normalised: the first two characters of the
      setting (or of "en" when unset), lower-cased. */
  function NormaliseLanguage(setting: Option<string>): (r: string)
    ensures |r| <= 2
    ensures forall i :: 0 <= i < |r| ==> !IsUpper(r[i])
    ensures setting.None? ==> r == DEFAULT_LANGUAGE
    ensures setting.Some? ==> |r| == (if |setting.value| < 2 then |setting.value| else 2)
    ensures setting.Some? ==> forall i :: 0 <= i < |r| ==> r[i] == LowerChar(setting.value[i])
  {
    var language := if setting.Some? then setting.value else DEFAULT_LANGUAGE;
    Lower(Prefix(language, 2))
  }

  /** A normalised language normalises to itself. */
  lemma NormaliseIdempotent(setting: Option<string>)
    ensures NormaliseLanguage(Some(NormaliseLanguage(setting))) == NormaliseLanguage(setting)
  {
  }

  /** The letter case of the setting does not matter. */
  lemma NormaliseIgnoresCase(s: string)
    ensures NormaliseLanguage(Some(Lower(s))) == NormaliseLanguage(Some(s))
  {
  }

  /** Some settings and what they normalise to. */
  lemma NormaliseExamples()
    ensures NormaliseLanguage(Some("DE")) == "de"
    ensures NormaliseLanguage(Some("English")) == "en"
    ensures NormaliseLanguage(Some("e")) == "e"
    ensures NormaliseLanguage(Some("")) == ""
  {
  }
}
