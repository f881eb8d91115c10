/** Settings read from the process environment (mirulog/config.py). The environment, the time-zone
    database, path resolution and float parsing are oracles. */
module Config {
  import opened Wrappers
  import opened Text

  /** `os.getenv`: the value of a variable, if it is set. */
  type Env = string -> Option<string>

  /** `os.getenv(key, default)`. */
  function GetEnv(env: Env, key: string, default: string): (r: string)
    ensures env(key).None? ==> r == default
    ensures env(key).Some? ==> r == env(key).value
  {
    env(key).GetOr(default)
  }

  /** The words `_as_bool` accepts as true, after stripping and lower-casing. */
  const TrueWords: set<string> := {"1", "true", "yes", "on"}

  /** `_as_bool(raw, default)`. */
  function AsBool(raw: Option<string>, default: Option<bool>): (r: bool)
    ensures raw.None? && default.None? ==> !r
    ensures raw.None? && default.Some? ==> r == default.value
    ensures raw.Some? ==> (r <==> Normalized(raw.value) in TrueWords)
  {
    match raw
    case None => default.GetOr(false)
    case Some(s) => Normalized(s) in TrueWords
  }

  /** A value that is present decides alone: the default is never consulted. */
  lemma AsBoolIgnoresDefault(s: string, d1: Option<bool>, d2: Option<bool>)
    ensures AsBool(Some(s), d1) == AsBool(Some(s), d2)
  {
  }

  /** The reading of a present value does not depend on letter case. */
  lemma AsBoolCaseInsensitive(s: string, d: Option<bool>)
    ensures AsBool(Some(Upper(s)), d) == AsBool(Some(s), d)
  {
    NormalizedUpper(s);
  }

  /** `_require(key)`: the value of a variable that must be set and non-empty. */
  function Require(env: Env, key: string): (r: Result<string>)
    ensures r.Err? <==> env(key).None? || env(key).value == ""
    ensures r.Ok? ==> env(key) == Some(r.value) && r.value != ""
    ensures r.Err? ==> r.error == Failure(Runtime, RequiredMessage(key))
  {
    match env(key)
    case Some(v) => if v == "" then Err(Failure(Runtime, RequiredMessage(key))) else Ok(v)
    case None => Err(Failure(Runtime, RequiredMessage(key)))
  }

  function RequiredMessage(key: string): string {
    "Environment variable '" + key + "' is required but missing"
  }

  datatype CaptureSettings = CaptureSettings(
    interval_seconds: int,
    idle_threshold_minutes: int,
    capture_root: string,
    archive_root: string,
    delete_after_analysis: bool)

  datatype GeminiSettings = GeminiSettings(
    api_key: string,
    model: string,
    max_tokens: int,
    temperature: real,
    max_retries: int,
    retry_buffer_seconds: real,
    request_spacing_seconds: real)

  datatype VisualizationSettings = VisualizationSettings(
    endpoint: string,
    api_key: Option<string>,
    model: string,
    enabled: bool)

  datatype LoggingSettings = LoggingSettings(directory: string, level: string)

  datatype OutputSettings = OutputSettings(summary_dir: string, export_dir: string)

  datatype AppSettings = AppSettings(
    timezone: string,
    capture: CaptureSettings,
    gemini: GeminiSettings,
    visualization: VisualizationSettings,
    logging: LoggingSettings,
    output: OutputSettings)

  /** `int(os.getenv(key, default))`. */
  function EnvInt(env: Env, key: string, default: string): (r: Result<int>)
    ensures r.Ok? <==> ParseInt(GetEnv(env, key, default)).Some?
    ensures r.Ok? ==> r.value == ParseInt(GetEnv(env, key, default)).value
    ensures r.Err? ==> r.error.kind == ValueError
  {
    var raw := GetEnv(env, key, default);
    match ParseInt(raw)
    case Some(n) => Ok(n)
    case None => Err(Failure(ValueError, "invalid literal for int() with base 10: '" + raw + "'"))
  }

  /** `float(os.getenv(key, default))`; `parseFloat` stands in for Python's float parser. */
  function EnvFloat(env: Env, key: string, default: string, parseFloat: string -> Option<real>): (r: Result<real>)
    ensures r.Ok? <==> parseFloat(GetEnv(env, key, default)).Some?
    ensures r.Ok? ==> r.value == parseFloat(GetEnv(env, key, default)).value
    ensures r.Err? ==> r.error.kind == ValueError
  {
    var raw := GetEnv(env, key, default);
    match parseFloat(raw)
    case Some(x) => Ok(x)
    case None => Err(Failure(ValueError, "could not convert string to float: '" + raw + "'"))
  }

  /** `ZoneInfo(os.getenv("TIMEZONE", "Asia/Tokyo"))`; an unknown zone raises ZoneInfoNotFoundError, a KeyError. */
  function TimeZone(env: Env, zoneExists: string -> bool): (r: Result<string>)
    ensures r.Ok? <==> zoneExists(GetEnv(env, "TIMEZONE", "Asia/Tokyo"))
    ensures r.Ok? ==> r.value == GetEnv(env, "TIMEZONE", "Asia/Tokyo")
    ensures r.Err? ==> r.error.kind == KeyError
  {
    var name := GetEnv(env, "TIMEZONE", "Asia/Tokyo");
    if zoneExists(name) then Ok(name) else Err(Failure(KeyError, "No time zone found with key " + name))
  }

  function CaptureFromEnv(env: Env, resolve: string -> string): (r: Result<CaptureSettings>)
    ensures r.Ok? <==> EnvInt(env, "CAPTURE_INTERVAL_SECONDS", "60").Ok? && EnvInt(env, "IDLE_THRESHOLD_MINUTES", "5").Ok?
    ensures r.Ok? ==> r.value.interval_seconds == EnvInt(env, "CAPTURE_INTERVAL_SECONDS", "60").value
    ensures r.Ok? ==> r.value.idle_threshold_minutes == EnvInt(env, "IDLE_THRESHOLD_MINUTES", "5").value
    ensures r.Ok? ==> r.value.capture_root == resolve(GetEnv(env, "CAPTURE_ROOT", "data/captures"))
    ensures r.Ok? ==> r.value.archive_root == resolve(GetEnv(env, "ARCHIVE_ROOT", "data/archive"))
    ensures r.Ok? ==> r.value.delete_after_analysis == AsBool(Some(GetEnv(env, "DELETE_CAPTURE_AFTER_ANALYSIS", "true")), None)
  {
    var interval :- EnvInt(env, "CAPTURE_INTERVAL_SECONDS", "60");
    var idle :- EnvInt(env, "IDLE_THRESHOLD_MINUTES", "5");
    Ok(CaptureSettings(
      interval,
      idle,
      resolve(GetEnv(env, "CAPTURE_ROOT", "data/captures")),
      resolve(GetEnv(env, "ARCHIVE_ROOT", "data/archive")),
      AsBool(Some(GetEnv(env, "DELETE_CAPTURE_AFTER_ANALYSIS", "true")), None)))
  }

  function GeminiFromEnv(env: Env, parseFloat: string -> Option<real>): (r: Result<GeminiSettings>)
    ensures Require(env, "GEMINI_API_KEY").Err? ==> r == Err(Require(env, "GEMINI_API_KEY").error)
    ensures r.Ok? ==> Require(env, "GEMINI_API_KEY") == Ok(r.value.api_key)
    ensures r.Ok? ==> r.value.model == GetEnv(env, "GEMINI_MODEL", "gemini-pro-vision")
    ensures r.Ok? ==> Ok(r.value.max_tokens) == EnvInt(env, "GEMINI_MAX_TOKENS", "1024")
    ensures r.Ok? ==> Ok(r.value.temperature) == EnvFloat(env, "GEMINI_TEMPERATURE", "0.4", parseFloat)
    ensures r.Ok? ==> Ok(r.value.max_retries) == EnvInt(env, "GEMINI_MAX_RETRIES", "5")
  {
    var key :- Require(env, "GEMINI_API_KEY");
    var maxTokens :- EnvInt(env, "GEMINI_MAX_TOKENS", "1024");
    var temperature :- EnvFloat(env, "GEMINI_TEMPERATURE", "0.4", parseFloat);
    var retries :- EnvInt(env, "GEMINI_MAX_RETRIES", "5");
    var buffer :- EnvFloat(env, "GEMINI_RETRY_BUFFER_SECONDS", "0.5", parseFloat);
    var spacing :- EnvFloat(env, "GEMINI_REQUEST_SPACING_SECONDS", "0", parseFloat);
    Ok(GeminiSettings(key, GetEnv(env, "GEMINI_MODEL", "gemini-pro-vision"), maxTokens, temperature, retries, buffer, spacing))
  }

  function VisualizationFromEnv(env: Env): (r: VisualizationSettings)
    ensures r.api_key == env("NANOBANANA_API_KEY")
    ensures r.enabled == AsBool(Some(GetEnv(env, "ENABLE_VISUALIZATION", "false")), None)
    ensures r.endpoint == GetEnv(env, "NANOBANANA_ENDPOINT", "https://api.nanobanana.pro/v1/images")
  {
    VisualizationSettings(
      GetEnv(env, "NANOBANANA_ENDPOINT", "https://api.nanobanana.pro/v1/images"),
      env("NANOBANANA_API_KEY"),
      GetEnv(env, "NANOBANANA_MODEL", "nano-pro-vision"),
      AsBool(Some(GetEnv(env, "ENABLE_VISUALIZATION", "false")), None))
  }

  /** `get_settings()`: each section in the order the source evaluates it, so the first failing
      variable decides the error. */
  function GetSettings(env: Env, zoneExists: string -> bool, resolve: string -> string,
                       parseFloat: string -> Option<real>): (r: Result<AppSettings>)
    ensures TimeZone(env, zoneExists).Err? ==> r.Err? && r.error.kind == KeyError
    ensures r.Ok? ==> CaptureFromEnv(env, resolve) == Ok(r.value.capture)
    ensures r.Ok? ==> GeminiFromEnv(env, parseFloat) == Ok(r.value.gemini)
    ensures r.Ok? ==> r.value.visualization == VisualizationFromEnv(env)
    ensures r.Ok? ==> r.value.logging.level == Upper(GetEnv(env, "LOG_LEVEL", "INFO"))
  {
    var zone :- TimeZone(env, zoneExists);
    var capture :- CaptureFromEnv(env, resolve);
    var gemini :- GeminiFromEnv(env, parseFloat);
    Ok(AppSettings(
      zone,
      capture,
      gemini,
      VisualizationFromEnv(env),
      LoggingSettings(resolve(GetEnv(env, "LOG_DIR", "logs")), Upper(GetEnv(env, "LOG_LEVEL", "INFO"))),
      OutputSettings(resolve(GetEnv(env, "SUMMARY_OUTPUT_DIR", "output")), resolve(GetEnv(env, "REPORT_EXPORT_DIR", "reports")))))
  }

  /** Once the time zone and the capture numbers are readable, a missing or empty API key is the error. */
  lemma MissingApiKey(env: Env, zoneExists: string -> bool, resolve: string -> string, parseFloat: string -> Option<real>)
    requires TimeZone(env, zoneExists).Ok? && CaptureFromEnv(env, resolve).Ok?
    requires env("GEMINI_API_KEY").None? || env("GEMINI_API_KEY") == Some("")
    ensures GetSettings(env, zoneExists, resolve, parseFloat) == Err(Failure(Runtime, RequiredMessage("GEMINI_API_KEY")))
  {
    assert GeminiFromEnv(env, parseFloat) == Err(Failure(Runtime, RequiredMessage("GEMINI_API_KEY")));
  }

  lemma DefaultIntervalParses()
    ensures ParseInt("60") == Some(60 as int)
  {
    var w := "60";
    TwoDigitsParse(w);
  }

  /** Two decimal digits read as their value. */
  lemma TwoDigitsParse(s: string)
    requires |s| == 2 && IsDigit(s[0]) && IsDigit(s[1])
    ensures ParseInt(s) == Some((s[0] as int - 48) * 10 + (s[1] as int - 48))
  {
    StripNoSpace(s);
    assert AllDigits(s);
    assert s[..1][..0] == [];
    assert DigitsValue(s[..1]) == s[0] as int - 48;
    assert DigitsValue(s) == DigitsValue(s[..1]) * 10 + (s[1] as int - 48);
  }

  lemma DefaultIdleParses()
    ensures ParseInt("5") == Some(5 as int)
  {
    ParseNatToString(5);
    assert NatToString(5) == "5";
  }

  lemma TrueReadsTrue()
    ensures AsBool(Some("true"), None)
  {
    var w := "true";
    PlainWordNormal(w);
    assert w in TrueWords;
  }

  lemma FalseReadsFalse()
    ensures !AsBool(Some("false"), None)
  {
    var w := "false";
    PlainWordNormal(w);
    assert |w| == 5;
  }

  /** An unset capture section reads as 60-second captures, a 5-minute idle threshold and deletion after analysis. */
  lemma CaptureDefaults(env: Env, resolve: string -> string)
    requires env("CAPTURE_INTERVAL_SECONDS").None? && env("IDLE_THRESHOLD_MINUTES").None?
    requires env("DELETE_CAPTURE_AFTER_ANALYSIS").None?
    ensures var r := CaptureFromEnv(env, resolve);
            r.Ok? && r.value.interval_seconds == 60 && r.value.idle_threshold_minutes == 5
            && r.value.delete_after_analysis
  {
    DefaultIntervalParses();
    DefaultIdleParses();
    TrueReadsTrue();
  }

  /** An unset visualisation section is disabled and has no key. */
  lemma VisualizationDefaults(env: Env)
    requires env("ENABLE_VISUALIZATION").None? && env("NANOBANANA_API_KEY").None?
    ensures !VisualizationFromEnv(env).enabled && VisualizationFromEnv(env).api_key.None?
  {
    FalseReadsFalse();
  }

  /** With nothing but the API key set, the settings take the documented defaults. */
  lemma UnsetDefaults(env: Env, key: string, zoneExists: string -> bool, resolve: string -> string,
                      parseFloat: string -> Option<real>)
    requires env("GEMINI_API_KEY") == Some(key) && key != ""
    requires env("TIMEZONE").None? && env("GEMINI_MODEL").None?
    requires env("CAPTURE_INTERVAL_SECONDS").None? && env("IDLE_THRESHOLD_MINUTES").None?
    requires env("DELETE_CAPTURE_AFTER_ANALYSIS").None?
    requires env("ENABLE_VISUALIZATION").None? && env("NANOBANANA_API_KEY").None?
    requires zoneExists("Asia/Tokyo")
    requires GeminiFromEnv(env, parseFloat).Ok?
    ensures var r := GetSettings(env, zoneExists, resolve, parseFloat);
            r.Ok? && r.value.timezone == "Asia/Tokyo"
            && r.value.capture.interval_seconds == 60
            && r.value.capture.idle_threshold_minutes == 5
            && r.value.capture.delete_after_analysis
            && r.value.gemini.api_key == key
            && r.value.gemini.model == "gemini-pro-vision"
            && !r.value.visualization.enabled
            && r.value.visualization.api_key.None?
  {
    assert TimeZone(env, zoneExists) == Ok("Asia/Tokyo");
    CaptureDefaults(env, resolve);
    VisualizationDefaults(env);
    var g := GeminiFromEnv(env, parseFloat).value;
    assert g.api_key == key && g.model == "gemini-pro-vision";
  }
}
