/**
 * The global setters of global.go: each stores the new value in the
 * process environment as well, so that a later initialisation reads it,
 * and then applies the matching in-process setter. A failure to store the
 * environment variable is reported as an error record and does not stop
 * the setter.
 */
module Global {
  import opened Wrappers
  import opened Levels
  import opened Render
  import opened Logging

  /** The environment variables read at initialisation. */
  const SeverityVariable := "LOG_SEVERITY_LEVEL"
  const FormatVariable := "LOG_OUTPUT_FORMAT"

  /**
   * The process environment. Whether storing a variable fails is decided
   * by the operating system, so it is given to Setenv as its outcome.
   */
  class Environment {
    var vars: map<string, string>

    constructor (vars: map<string, string>)
      ensures this.vars == vars
    {
      this.vars := vars;
    }

    method Setenv(key: string, value: string, failure: Option<string>) returns (err: Option<string>)
      modifies this
      ensures err == failure
      ensures vars == Stored(old(vars), key, value, failure)
    {
      if failure.None? {
        vars := vars[key := value];
      }
      return failure;
    }
  }

  /** The environment after storing key := value with the given outcome. */
  function Stored(vars: map<string, string>, key: string, value: string, failure: Option<string>): (r: map<string, string>)
    ensures failure.None? ==> key in r && r[key] == value && r.Keys == vars.Keys + {key}
    ensures failure.Some? ==> r == vars
    ensures forall k :: k in vars && k != key ==> k in r && r[k] == vars[k]
  {
    if failure.None? then vars[key := value] else vars
  }

  /** The text of the error record for a failed Setenv inside the named setter. */
  function SetenvMessage(caller: string, err: string): (r: string)
    ensures |r| > 7 + |caller| + |err| && r[..7] == "chatty."
    ensures r[7..7 + |caller|] == caller && r[|r| - |err|..] == err
  {
    "chatty." + caller + " error setting environment variable " + err
  }

  /** The record reporting a Setenv outcome under configuration s, if any. */
  function Reported(s: Settings, encode: Encoder, caller: string, failure: Option<string>, now: string): (r: Option<string>)
    ensures r.Some? ==> failure.Some? && s.threshold != Fatal
    ensures r.Some? ==> r == Emitted(s, encode, Error, SetenvMessage(caller, failure.value), [], now)
  {
    match failure
    case None => None
    case Some(err) => Emitted(s, encode, Error, SetenvMessage(caller, err), [], now)
  }

  /**
   * A successful Setenv is never reported; a failed one is reported
   * exactly when the threshold lets an error record through, that is,
   * unless the threshold is fatal.
   */
  lemma ReportedIff(s: Settings, encode: Encoder, caller: string, failure: Option<string>, now: string)
    ensures failure.None? ==> Reported(s, encode, caller, failure, now) == None
    ensures failure.Some? ==> (Reported(s, encode, caller, failure, now).Some? <==> s.threshold != Fatal)
  {
    if failure.Some? {
      var m := SetenvMessage(caller, failure.value);
      assert m[0] == 'c';
    }
  }

  /** Stores key := value and reports a failure at error level, under the current settings. */
  method StoreOrReport(l: Logger, env: Environment, key: string, value: string, caller: string,
                       failure: Option<string>, now: string)
    modifies env, l`lastRecord, l`output
    ensures l.Current() == old(l.Current())
    ensures env.vars == Stored(old(env.vars), key, value, failure)
    ensures l.Published(old(l.lastRecord), old(l.output), Reported(l.Current(), l.encode, caller, failure, now))
  {
    var err := env.Setenv(key, value, failure);
    if err.Some? {
      l.Write(Error, SetenvMessage(caller, err.value), [], now);
    }
  }

  method SetGlobalSeverityLevelDebug(l: Logger, env: Environment, failure: Option<string>, now: string)
    modifies env, l`threshold, l`lastRecord, l`output
    ensures l.Current() == old(l.Current()).(threshold := Debug)
    ensures env.vars == Stored(old(env.vars), SeverityVariable, "debug", failure)
    ensures l.Published(old(l.lastRecord), old(l.output),
                        Reported(old(l.Current()), l.encode, "SetGlobalSeverityLevelDebug", failure, now))
  {
    StoreOrReport(l, env, SeverityVariable, LevelName(Debug), "SetGlobalSeverityLevelDebug", failure, now);
    l.SetSeverityLevelDebug();
  }

  method SetGlobalSeverityLevelInfo(l: Logger, env: Environment, failure: Option<string>, now: string)
    modifies env, l`threshold, l`lastRecord, l`output
    ensures l.Current() == old(l.Current()).(threshold := Info)
    ensures env.vars == Stored(old(env.vars), SeverityVariable, "info", failure)
    ensures l.Published(old(l.lastRecord), old(l.output),
                        Reported(old(l.Current()), l.encode, "SetGlobalSeverityLevelInfo", failure, now))
  {
    StoreOrReport(l, env, SeverityVariable, LevelName(Info), "SetGlobalSeverityLevelInfo", failure, now);
    l.SetSeverityLevelInfo();
  }

  method SetGlobalSeverityLevelWarning(l: Logger, env: Environment, failure: Option<string>, now: string)
    modifies env, l`threshold, l`lastRecord, l`output
    ensures l.Current() == old(l.Current()).(threshold := Warning)
    ensures env.vars == Stored(old(env.vars), SeverityVariable, "warning", failure)
    ensures l.Published(old(l.lastRecord), old(l.output),
                        Reported(old(l.Current()), l.encode, "SetGlobalSeverityLevelWarning", failure, now))
  {
    StoreOrReport(l, env, SeverityVariable, LevelName(Warning), "SetGlobalSeverityLevelWarning", failure, now);
    l.SetSeverityLevelWarning();
  }

  method SetGlobalSeverityLevelError(l: Logger, env: Environment, failure: Option<string>, now: string)
    modifies env, l`threshold, l`lastRecord, l`output
    ensures l.Current() == old(l.Current()).(threshold := Error)
    ensures env.vars == Stored(old(env.vars), SeverityVariable, "error", failure)
    ensures l.Published(old(l.lastRecord), old(l.output),
                        Reported(old(l.Current()), l.encode, "SetGlobalSeverityLevelError", failure, now))
  {
    StoreOrReport(l, env, SeverityVariable, LevelName(Error), "SetGlobalSeverityLevelError", failure, now);
    l.SetSeverityLevelError();
  }

  method SetGlobalSeverityLevelFatal(l: Logger, env: Environment, failure: Option<string>, now: string)
    modifies env, l`threshold, l`lastRecord, l`output
    ensures l.Current() == old(l.Current()).(threshold := Fatal)
    ensures env.vars == Stored(old(env.vars), SeverityVariable, "fatal", failure)
    ensures l.Published(old(l.lastRecord), old(l.output),
                        Reported(old(l.Current()), l.encode, "SetGlobalSeverityLevelFatal", failure, now))
  {
    StoreOrReport(l, env, SeverityVariable, LevelName(Fatal), "SetGlobalSeverityLevelFatal", failure, now);
    l.SetSeverityLevelFatal();
  }

  /**
   * Applies the level the parser returns for sl, without touching the
   * environment. A parse error is reported first and the parser's fallback
   * (the current threshold) is applied again, leaving it unchanged; a slice
   * out of range aborts with nothing changed.
   */
  method SetGlobalSeverityLevel(l: Logger, sl: string, now: string) returns (panicked: bool)
    modifies l`threshold, l`lastRecord, l`output
    ensures var g := GuessSeverityLevel(sl, old(l.threshold));
            && panicked == g.SliceOutOfRange?
            && l.format == old(l.format) && l.escape == old(l.escape)
            && (g.SliceOutOfRange? ==> l.threshold == old(l.threshold) && l.lastRecord == old(l.lastRecord) && l.output == old(l.output))
            && (g.Parsed? ==> l.threshold == g.level && l.lastRecord == old(l.lastRecord) && l.output == old(l.output))
            && (g.Fallback? ==> l.threshold == old(l.threshold) &&
                                l.Published(old(l.lastRecord), old(l.output), Emitted(old(l.Current()), l.encode, Error, ErrorText(g.error), [], now)))
  {
    var g := GuessSeverityLevel(sl, l.threshold);
    if g.SliceOutOfRange? {
      return true;
    }
    if g.Fallback? {
      l.Write(Error, ErrorText(g.error), [], now);
    }
    match g.level {
      case Debug => l.SetSeverityLevelDebug();
      case Info => l.SetSeverityLevelInfo();
      case Warning => l.SetSeverityLevelWarning();
      case Error => l.SetSeverityLevelError();
      case Fatal => l.SetSeverityLevelFatal();
    }
    return false;
  }

  method SetGlobalOutputFormatJSON(l: Logger, env: Environment, failure: Option<string>, now: string)
    modifies env, l`format, l`lastRecord, l`output
    ensures l.Current() == old(l.Current()).(format := Json)
    ensures env.vars == Stored(old(env.vars), FormatVariable, "json", failure)
    ensures l.Published(old(l.lastRecord), old(l.output),
                        Reported(old(l.Current()), l.encode, "SetGlobalOutputFormatJSON", failure, now))
  {
    StoreOrReport(l, env, FormatVariable, FormatName(Json), "SetGlobalOutputFormatJSON", failure, now);
    l.SetOutputFormatJSON();
  }

  method SetGlobalOutputFormatPlainText(l: Logger, env: Environment, failure: Option<string>, now: string)
    modifies env, l`format, l`lastRecord, l`output
    ensures l.Current() == old(l.Current()).(format := Plain)
    ensures env.vars == Stored(old(env.vars), FormatVariable, "plain", failure)
    ensures l.Published(old(l.lastRecord), old(l.output),
                        Reported(old(l.Current()), l.encode, "SetGlobalOutputFormatPlainText", failure, now))
  {
    StoreOrReport(l, env, FormatVariable, FormatName(Plain), "SetGlobalOutputFormatPlainText", failure, now);
    l.SetOutputFormatPlainText();
  }

  /**
   * Selects the format by its exact, case-sensitive name. Any other text
   * leaves the format and the environment as they were and is reported as
   * an error record.
   */
  method SetGlobalOutputFormat(l: Logger, env: Environment, format: string, failure: Option<string>, now: string)
    modifies env, l`format, l`lastRecord, l`output
    ensures format == "json" ==> l.Current() == old(l.Current()).(format := Json) &&
                                 env.vars == Stored(old(env.vars), FormatVariable, "json", failure) &&
                                 l.Published(old(l.lastRecord), old(l.output),
                                             Reported(old(l.Current()), l.encode, "SetGlobalOutputFormatJSON", failure, now))
    ensures format == "plain" ==> l.Current() == old(l.Current()).(format := Plain) &&
                                  env.vars == Stored(old(env.vars), FormatVariable, "plain", failure) &&
                                  l.Published(old(l.lastRecord), old(l.output),
                                              Reported(old(l.Current()), l.encode, "SetGlobalOutputFormatPlainText", failure, now))
    ensures format != "json" && format != "plain" ==>
              l.Current() == old(l.Current()) && env.vars == old(env.vars) &&
              l.Published(old(l.lastRecord), old(l.output),
                          Emitted(old(l.Current()), l.encode, Error, "unknown format given: " + format, [], now))
  {
    if format == FormatName(Json) {
      SetGlobalOutputFormatJSON(l, env, failure, now);
    } else if format == FormatName(Plain) {
      SetGlobalOutputFormatPlainText(l, env, failure, now);
    } else {
      l.Write(Error, "unknown format given: " + format, [], now);
    }
  }

  /**
   * Reading back what the global severity setters store: "debug" and
   * "info" give their own level at the next initialisation, but the full
   * names "warning", "error" and "fatal" make the parser slice out of range.
   */
  lemma StoredSeverityReread(current: Level)
    ensures GuessSeverityLevel(LevelName(Debug), current) == Parsed(Debug)
    ensures GuessSeverityLevel(LevelName(Info), current) == Parsed(Info)
    ensures GuessSeverityLevel(LevelName(Warning), current).SliceOutOfRange?
    ensures GuessSeverityLevel(LevelName(Error), current).SliceOutOfRange?
    ensures GuessSeverityLevel(LevelName(Fatal), current).SliceOutOfRange?
  {
    GuessAcceptedFullNames(current);
    GuessFiveCharFullNames(current);
    GuessLongFullNames(current);
  }

  /**
   * Reading back what the global format setters store: each stored name
   * selects its own format at the next initialisation.
   */
  lemma StoredFormatReread()
    ensures Normalise(FormatName(Json)) == "json"
    ensures Normalise(FormatName(Plain)) != "json"
  {
    NormaliseIdentity("json");
    NormaliseIdentity("plain");
  }
}
