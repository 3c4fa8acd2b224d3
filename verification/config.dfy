/**
 Configuration loading and logger setup of the temperature simulator
 (internal/simulator/config.go). Opening the file and decoding its JSON are
 abstracted into a `DecodeOutcome`; the process-wide logger is an explicit
 `Logger` state value that `SetupLogger` maps to its successor.
 */
module SimConfig {
  import opened Results

  /** Run parameters of one simulation. */
  datatype Config = Config(
    totalReadings: int,
    startingTemp: real,
    maxTempIncrease: real,
    tempFluctuation: real,
    minTemp: real,
    maxTemp: real,
    outputFileName: string,
    simulate: bool)

  /** Identity of one sensor; copied unchanged into every reading it produces. */
  datatype Sensor = Sensor(name: string, id: string, version: string, location: string)

  /** The whole configuration file: run parameters plus the sensor list. */
  datatype SensorConfig = SensorConfig(config: Config, sensors: seq<Sensor>)

  /** What opening and decoding the configuration file produced. */
  datatype DecodeOutcome =
    | OpenFailed(cause: string)
    | DecodeFailed(cause: string)
    | Decoded(decoded: SensorConfig)

  const OpenErrorPrefix: string := "unable to open configuration file: "
  const DecodeErrorPrefix: string := "error decoding configuration JSON: "
  const NoSensorsMessage: string := "no sensors found in configuration"

  /** The three ways loading can fail; each wraps the underlying cause where Go does. */
  datatype LoadError =
    | OpenError(cause: string)
    | DecodeError(cause: string)
    | NoSensors
  {
    /** The text of the error Go builds with `fmt.Errorf`. */
    function Message(): string {
      match this
      case OpenError(c) => OpenErrorPrefix + c
      case DecodeError(c) => DecodeErrorPrefix + c
      case NoSensors => NoSensorsMessage
    }
  }

  /**
   The validation `LoadConfigAndSensors` performs once the file has been
   opened and decoded: an open failure and a decode failure are reported as
   such, a decoded file without sensors is rejected, and anything else is
   returned as decoded.
   */
  function LoadConfigAndSensors(outcome: DecodeOutcome): (r: Result<SensorConfig, LoadError>)
    ensures r.Success? <==> outcome.Decoded? && |outcome.decoded.sensors| > 0
    ensures r.Success? ==> r.value == outcome.decoded && |r.value.sensors| > 0
    ensures outcome.OpenFailed? ==> r == Failure(OpenError(outcome.cause))
    ensures outcome.DecodeFailed? ==> r == Failure(DecodeError(outcome.cause))
    ensures outcome.Decoded? && |outcome.decoded.sensors| == 0 ==> r == Failure(NoSensors)
  {
    match outcome
    case OpenFailed(c) => Failure(OpenError(c))
    case DecodeFailed(c) => Failure(DecodeError(c))
    case Decoded(sc) =>
      if |sc.sensors| == 0 then Failure(NoSensors) else Success(sc)
  }

  /** The first character of each kind of error text. */
  function Lead(e: LoadError): char {
    match e
    case OpenError(_) => 'u'
    case DecodeError(_) => 'e'
    case NoSensors => 'n'
  }

  lemma MessageLead(e: LoadError)
    ensures |e.Message()| > 0 && e.Message()[0] == Lead(e)
  {
  }

  /** Different failures never produce the same error text, so a caller can tell them apart. */
  lemma LoadErrorMessageInjective(e1: LoadError, e2: LoadError)
    requires e1.Message() == e2.Message()
    ensures e1 == e2
  {
    MessageLead(e1);
    MessageLead(e2);
    var m := e1.Message();
    if e1.OpenError? && e2.OpenError? {
      assert e1.cause == m[|OpenErrorPrefix|..] == e2.cause;
    } else if e1.DecodeError? && e2.DecodeError? {
      assert e1.cause == m[|DecodeErrorPrefix|..] == e2.cause;
    }
  }

  // ---------------------------------------------------------------------------
  // Logger setup

  /** Go's `log.Ldate`, `log.Ltime` and `log.Lshortfile` flag bits. */
  const Ldate: bv8 := 1
  const Ltime: bv8 := 2
  const Lshortfile: bv8 := 16

  /** The flags `SetupLogger` installs: date, time and short file name. */
  const LoggerFlags: int := (Ldate | Ltime | Lshortfile) as int

  /** The state of Go's standard logger that `SetupLogger` touches. */
  datatype Logger = Logger(flags: int, prefix: string)

  predicate IsUpperAscii(c: char) {
    'A' <= c <= 'Z'
  }

  /** ASCII lower-casing of one character. */
  function LowerAscii(c: char): (r: char)
    ensures !IsUpperAscii(r)
    ensures !IsUpperAscii(c) ==> r == c
    ensures IsUpperAscii(c) ==> r as int - c as int == 'a' as int - 'A' as int
  {
    if IsUpperAscii(c) then (c as int - 'A' as int + 'a' as int) as char else c
  }

  /** ASCII upper-casing of one character, the inverse of `LowerAscii` on letters. */
  function UpperAscii(c: char): (r: char)
    ensures 'a' <= c <= 'z' ==> IsUpperAscii(r) && LowerAscii(r) == c
    ensures !('a' <= c <= 'z') ==> r == c
  {
    if 'a' <= c <= 'z' then (c as int - 'a' as int + 'A' as int) as char else c
  }

  /** ASCII lower-casing of a string, character by character. */
  function ToLowerAscii(s: string): (r: string)
    ensures |r| == |s|
    ensures forall i :: 0 <= i < |r| ==> !IsUpperAscii(r[i])
  {
    seq(|s|, i requires 0 <= i < |s| => LowerAscii(s[i]))
  }

  /** ASCII upper-casing of a string, character by character. */
  function ToUpperAscii(s: string): (r: string)
    ensures |r| == |s|
  {
    seq(|s|, i requires 0 <= i < |s| => UpperAscii(s[i]))
  }

  /** The level names `SetupLogger` accepts, in lower case. */
  const KnownLevels: set<string> := {"debug", "info", "warn", "error"}

  /** The prefix installed for a lower-cased level, or `None` for an unknown level. */
  function LevelPrefix(lowered: string): (r: Option<string>)
    ensures r.Some? <==> lowered in KnownLevels
  {
    match lowered
    case "debug" => Some("DEBUG: ")
    case "info" => Some("INFO: ")
    case "warn" => Some("WARN: ")
    case "error" => Some("ERROR: ")
    case _ => None
  }

  const UnknownLevelPrefix: string := "unknown log level: "

  /**
   `SetupLogger` on an explicit logger state: the flags are always replaced,
   the prefix is chosen by the lower-cased level, and an unknown level leaves
   the prefix as it was and yields an error naming the level as given.
   */
  function SetupLogger(logger: Logger, logLevel: string): (r: (Logger, Option<string>))
    ensures r.0.flags == LoggerFlags
    ensures r.1.None? <==> ToLowerAscii(logLevel) in KnownLevels
    ensures r.1.Some? ==> r.0.prefix == logger.prefix && r.1.value == UnknownLevelPrefix + logLevel
    ensures ToLowerAscii(logLevel) == "debug" ==> r.0.prefix == "DEBUG: "
    ensures ToLowerAscii(logLevel) == "info" ==> r.0.prefix == "INFO: "
    ensures ToLowerAscii(logLevel) == "warn" ==> r.0.prefix == "WARN: "
    ensures ToLowerAscii(logLevel) == "error" ==> r.0.prefix == "ERROR: "
  {
    var flagged := logger.(flags := LoggerFlags);
    match LevelPrefix(ToLowerAscii(logLevel))
    case Some(p) => (flagged.(prefix := p), None)
    case None => (flagged, Some(UnknownLevelPrefix + logLevel))
  }

  /** On success the prefix is the level itself, upper-cased, followed by ": ". */
  lemma SetupLoggerPrefixIsUpperLevel(logger: Logger, logLevel: string)
    requires SetupLogger(logger, logLevel).1.None?
    ensures SetupLogger(logger, logLevel).0.prefix == ToUpperAscii(ToLowerAscii(logLevel)) + ": "
  {
    var low := ToLowerAscii(logLevel);
    assert low in KnownLevels;
    if low == "debug" {
      assert ToUpperAscii(low) == "DEBUG";
    } else if low == "info" {
      assert ToUpperAscii(low) == "INFO";
    } else if low == "warn" {
      assert ToUpperAscii(low) == "WARN";
    } else {
      assert ToUpperAscii(low) == "ERROR";
    }
  }

  /** Levels that differ only in letter case configure the logger identically. */
  lemma SetupLoggerCaseInsensitive(logger: Logger, a: string, b: string)
    requires ToLowerAscii(a) == ToLowerAscii(b)
    ensures SetupLogger(logger, a).0 == SetupLogger(logger, b).0
    ensures SetupLogger(logger, a).1.None? <==> SetupLogger(logger, b).1.None?
  {
  }

  /** Lower-casing twice is lower-casing once. */
  lemma ToLowerAsciiIdempotent(s: string)
    ensures ToLowerAscii(ToLowerAscii(s)) == ToLowerAscii(s)
  {
  }

  /** Upper-case spellings of the four levels are accepted, e.g. "DEBUG" selects "DEBUG: ". */
  lemma SetupLoggerAcceptsUpperCase(logger: Logger)
    ensures SetupLogger(logger, "DEBUG") == (Logger(LoggerFlags, "DEBUG: "), None)
    ensures SetupLogger(logger, "Info") == (Logger(LoggerFlags, "INFO: "), None)
    ensures SetupLogger(logger, "WARN") == (Logger(LoggerFlags, "WARN: "), None)
    ensures SetupLogger(logger, "Error") == (Logger(LoggerFlags, "ERROR: "), None)
  {
    assert ToLowerAscii("DEBUG") == "debug";
    assert ToLowerAscii("Info") == "info";
    assert ToLowerAscii("WARN") == "warn";
    assert ToLowerAscii("Error") == "error";
  }

  /** Configuring the same level twice leaves the logger as configuring it once. */
  lemma SetupLoggerIdempotent(logger: Logger, logLevel: string)
    ensures SetupLogger(SetupLogger(logger, logLevel).0, logLevel) == SetupLogger(logger, logLevel)
  {
  }
}
