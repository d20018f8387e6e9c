/**
 * The logger state of the chatty package: the configuration (threshold,
 * format, escape flag) with its setters (config.go), the package
 * initialisation (chatty.go), and the record emitter with its last-record
 * slot (write.go).
 */
module Logging {
  import opened Wrappers
  import opened Levels
  import opened Pairs
  import opened Render

  /** The configuration read by every emission. */
  datatype Settings = Settings(threshold: Level, format: Format, escape: bool)

  /** The values the package variables start with: info, plain, no escaping. */
  const Defaults := Settings(Info, Plain, false)

  /**
   * The text of a record in the configured format: JSON by concatenation,
   * JSON through the encoder (falling back to concatenation when the
   * encoder fails), or plain text. The level is written by its own name.
   */
  function RecordText(s: Settings, encode: Encoder, now: string, level: Level, msg: string, pairs: seq<Pair>): (r: string)
    ensures s.format == Plain ==> |r| > 0 && r[|r| - 1] == '\n'
    ensures s.format == Json && (!s.escape || encode(now, LevelName(level), msg, pairs).None?) ==>
              |r| >= 2 && r[0] == '{' && r[|r| - 1] == '}'
  {
    var name := LevelName(level);
    if s.format == Json then
      if !s.escape then JsonRecord(now, name, msg, pairs)
      else
        match encode(now, name, msg, pairs)
        case Some(b) => b
        case None => JsonRecord(now, name, msg, pairs)
    else PlainRecord(now, name, msg, pairs)
  }

  /**
   * The record one call of write emits under configuration s, or None when
   * it emits nothing.
   */
  function Emitted(s: Settings, encode: Encoder, level: Level, msg: string, pairs: seq<Pair>, now: string): (r: Option<string>)
    ensures r.Some? <==> (msg != "" || pairs != []) && Rank(s.threshold) <= Rank(level)
    ensures r.Some? ==> r.value == RecordText(s, encode, now, level, msg, pairs)
  {
    if msg == "" && |pairs| < 1 then None
    else if Rank(s.threshold) > Rank(level) then None
    else Some(RecordText(s, encode, now, level, msg, pairs))
  }

  // ---------------------------------------------------------------------
  // Properties of an emission

  /** An empty message without attachments is never written, whatever the threshold. */
  lemma EmptyRecordSuppressed(s: Settings, encode: Encoder, level: Level, now: string)
    ensures Emitted(s, encode, level, "", [], now) == None
  {
  }

  /** Lowering the threshold never suppresses a record that was written, nor changes it. */
  lemma LowerThresholdKeepsRecord(s: Settings, t: Level, encode: Encoder, level: Level, msg: string, pairs: seq<Pair>, now: string)
    requires Rank(t) <= Rank(s.threshold)
    requires Emitted(s, encode, level, msg, pairs, now).Some?
    ensures Emitted(s.(threshold := t), encode, level, msg, pairs, now) == Emitted(s, encode, level, msg, pairs, now)
  {
  }

  /** Every level passes a debug threshold, and a fatal record passes any threshold. */
  lemma ExtremeLevels(s: Settings, encode: Encoder, level: Level, msg: string, now: string)
    requires msg != ""
    ensures Emitted(s, encode, Fatal, msg, [], now).Some?
    ensures Emitted(s.(threshold := Debug), encode, level, msg, [], now).Some?
  {
  }

  /** With a warning threshold, info is dropped and error is written. */
  lemma WarningThresholdExample(format: Format, escape: bool, encode: Encoder, now: string)
    ensures Emitted(Settings(Warning, format, escape), encode, Info, "x", [], now) == None
    ensures Emitted(Settings(Warning, format, escape), encode, Error, "x", [], now).Some?
  {
  }

  /** The format decides the renderer; the escape flag matters only for JSON. */
  lemma FormatDispatch(s: Settings, encode: Encoder, now: string, level: Level, msg: string, pairs: seq<Pair>)
    ensures s.format == Plain ==> RecordText(s, encode, now, level, msg, pairs) == PlainRecord(now, LevelName(level), msg, pairs)
    ensures s.format == Json && !s.escape ==> RecordText(s, encode, now, level, msg, pairs) == JsonRecord(now, LevelName(level), msg, pairs)
    ensures s.format == Json && s.escape && encode(now, LevelName(level), msg, pairs).Some? ==>
            RecordText(s, encode, now, level, msg, pairs) == encode(now, LevelName(level), msg, pairs).value
    ensures s.format == Json && s.escape && encode(now, LevelName(level), msg, pairs).None? ==>
            RecordText(s, encode, now, level, msg, pairs) == JsonRecord(now, LevelName(level), msg, pairs)
  {
  }

  /** An info message "hello" in unescaped JSON is exactly the three fixed members. */
  lemma JsonHelloExample(threshold: Level, encode: Encoder, now: string)
    requires Rank(threshold) <= Rank(Info)
    ensures Emitted(Settings(threshold, Json, false), encode, Info, "hello", [], now) ==
            Some("{\"ts\":\"" + now + "\",\"level\":\"info\",\"msg\":\"hello\"}")
  {
    var s := Settings(threshold, Json, false);
    assert RecordText(s, encode, now, Info, "hello", []) == JsonRecord(now, "info", "hello", []) by {
      assert LevelName(Info) == "info";
    }
    assert Emitted(s, encode, Info, "hello", [], now) == Some(JsonRecord(now, "info", "hello", [])) by {
      assert "hello" != [];
    }
    JsonHelloRecord(now);
  }

  /** The text of the record of JsonHelloExample, with the literals merged. */
  lemma JsonHelloRecord(now: string)
    ensures JsonRecord(now, "info", "hello", []) == "{\"ts\":\"" + now + "\",\"level\":\"info\",\"msg\":\"hello\"}"
  {
    JsonRecordNoPairs(now, "info", "hello");
    var tail := "\",\"level\":\"" + "info" + "\",\"msg\":\"" + "hello" + "\"}";
    assert tail == "\",\"level\":\"info\",\"msg\":\"hello\"}";
    assert "{\"ts\":\"" + now + "\",\"level\":\"" + "info" + "\",\"msg\":\"" + "hello" + "\"}" == "{\"ts\":\"" + now + tail;
  }


  /** A fatal plain-text record carries the level text "fatal"; it is not renamed. */
  lemma FatalPlainText(s: Settings, encode: Encoder, msg: string, now: string)
    requires msg != "" && s.format == Plain
    ensures Emitted(s, encode, Fatal, msg, [], now) == Some(now + "\tfatal\t" + msg + "\n")
  {
    assert Emitted(s, encode, Fatal, msg, [], now) == Some(PlainRecord(now, "fatal", msg, [])) by {
      assert LevelName(Fatal) == "fatal";
      assert Rank(s.threshold) <= Rank(Fatal);
    }
    PlainRecordNoPairs(now, "fatal", msg);
    var mid := "\t" + "fatal" + "\t";
    assert mid == "\tfatal\t";
    assert now + "\t" + "fatal" + "\t" + msg + "\n" == now + mid + msg + "\n";
  }

  /**
   * A fatal JSON record carries the level text "fatal" as the value of its
   * level member; it is not renamed.
   */
  lemma FatalJsonText(s: Settings, encode: Encoder, msg: string, now: string)
    requires msg != "" && s.format == Json && !s.escape
    ensures Emitted(s, encode, Fatal, msg, [], now) ==
            Some("{\"ts\":\"" + now + "\",\"level\":\"" + "fatal" + "\",\"msg\":\"" + msg + "\"}")
  {
    assert Emitted(s, encode, Fatal, msg, [], now) == Some(JsonRecord(now, "fatal", msg, [])) by {
      assert LevelName(Fatal) == "fatal";
      assert Rank(s.threshold) <= Rank(Fatal);
    }
    JsonRecordNoPairs(now, "fatal", msg);
  }

  // ---------------------------------------------------------------------
  // The package state

  /**
   * The package-level variables: the configuration, the last-record slot,
   * and the records written so far (the standard output, as a ghost
   * history). The JSON encoder is fixed when the logger is made.
   */
  class Logger {
    var threshold: Level
    var format: Format
    var escape: bool
    var lastRecord: string
    ghost var output: seq<string>
    const encode: Encoder

    function Current(): (r: Settings)
      reads this
    {
      Settings(threshold, format, escape)
    }

    /**
     * The last-record slot and the output after an emission e, given their
     * values last0 and out0 before it: unchanged for None, extended by the
     * record otherwise.
     */
    ghost predicate Published(last0: string, out0: seq<string>, e: Option<string>)
      reads this
    {
      match e
      case None => lastRecord == last0 && output == out0
      case Some(r) => lastRecord == r && output == out0 + [r]
    }

    constructor (encode: Encoder)
      ensures Current() == Defaults
      ensures lastRecord == "" && output == []
      ensures this.encode == encode
    {
      threshold, format, escape := Info, Plain, false;
      lastRecord := "";
      output := [];
      this.encode := encode;
    }

    // -------------------------------------------------------------------
    // Setters

    method SetSeverityLevelDebug()
      modifies this`threshold
      ensures Current() == old(Current()).(threshold := Debug)
    {
      threshold := Debug;
    }

    method SetSeverityLevelInfo()
      modifies this`threshold
      ensures Current() == old(Current()).(threshold := Info)
    {
      threshold := Info;
    }

    method SetSeverityLevelWarning()
      modifies this`threshold
      ensures Current() == old(Current()).(threshold := Warning)
    {
      threshold := Warning;
    }

    method SetSeverityLevelError()
      modifies this`threshold
      ensures Current() == old(Current()).(threshold := Error)
    {
      threshold := Error;
    }

    method SetSeverityLevelFatal()
      modifies this`threshold
      ensures Current() == old(Current()).(threshold := Fatal)
    {
      threshold := Fatal;
    }

    method SetOutputFormatJSON()
      modifies this`format
      ensures Current() == old(Current()).(format := Json)
    {
      format := Json;
    }

    method SetOutputFormatPlainText()
      modifies this`format
      ensures Current() == old(Current()).(format := Plain)
    {
      format := Plain;
    }

    method EscapeMessageStringForJSON(b: bool)
      modifies this`escape
      ensures Current() == old(Current()).(escape := b)
    {
      escape := b;
    }

    // -------------------------------------------------------------------
    // Emission

    /**
     * Writes a record: nothing for an empty message without attachments or
     * for a level below the threshold; otherwise the record is rendered in
     * the configured format, stored in the last-record slot and written out.
     */
    method Write(level: Level, msg: string, pairs: seq<Pair>, now: string)
      modifies this`lastRecord, this`output
      ensures Current() == old(Current())
      ensures Published(old(lastRecord), old(output), Emitted(Current(), encode, level, msg, pairs, now))
    {
      if msg == "" && |pairs| < 1 {
        return;
      }
      if Rank(threshold) > Rank(level) {
        return;
      }
      var record := "";
      if format == Json {
        if !escape {
          record := JsonString(now, LevelName(level), msg, pairs);
        } else {
          record := JsonMarshalledString(encode, now, LevelName(level), msg, pairs);
        }
      } else {
        record := PlainString(now, LevelName(level), msg, pairs);
      }
      lastRecord := record;
      output := output + [lastRecord];
    }

    // -------------------------------------------------------------------
    // Initialisation from the environment

    /**
     * Sets the threshold from the environment's severity text. A parse
     * error keeps the current threshold (the parser hands it back) and is
     * reported as an error record; a slice out of range aborts, reported
     * as panicked with nothing changed.
     */
    method DefineSeverityLevel(env: string, now: string) returns (panicked: bool)
      modifies this`threshold, this`lastRecord, this`output
      ensures var g := GuessSeverityLevel(env, old(threshold));
              && panicked == g.SliceOutOfRange?
              && format == old(format) && escape == old(escape)
              && (g.SliceOutOfRange? ==> threshold == old(threshold) && lastRecord == old(lastRecord) && output == old(output))
              && (g.Parsed? ==> threshold == g.level && lastRecord == old(lastRecord) && output == old(output))
              && (g.Fallback? ==> threshold == old(threshold) &&
                                  Published(old(lastRecord), old(output), Emitted(old(Current()), encode, Error, ErrorText(g.error), [], now)))
    {
      var g := GuessSeverityLevel(env, threshold);
      if g.SliceOutOfRange? {
        return true;
      }
      threshold := g.level;
      if g.Fallback? {
        Write(Error, ErrorText(g.error), [], now);
      }
      return false;
    }

    /** Selects JSON when the trimmed, lower-cased text is "json", plain otherwise. */
    method DefineOutputFormat(env: string)
      modifies this`format
      ensures format == Json <==> Normalise(env) == "json"
      ensures threshold == old(threshold) && escape == old(escape)
    {
      var lof := Normalise(env);
      if lof == FormatName(Json) {
        format := Json;
      } else {
        format := Plain;
      }
    }

    /** The package initialisation: severity first, then format. */
    method Init(levelEnv: string, formatEnv: string, now: string) returns (panicked: bool)
      modifies this`threshold, this`format, this`lastRecord, this`output
      ensures var g := GuessSeverityLevel(levelEnv, old(threshold));
              && panicked == g.SliceOutOfRange?
              && escape == old(escape)
              && (panicked ==> Current() == old(Current()) && lastRecord == old(lastRecord) && output == old(output))
              && (!panicked ==> threshold == g.level && (format == Json <==> Normalise(formatEnv) == "json"))
              && (g.Parsed? ==> lastRecord == old(lastRecord) && output == old(output))
              && (g.Fallback? ==> Published(old(lastRecord), old(output), Emitted(old(Current()), encode, Error, ErrorText(g.error), [], now)))
    {
      panicked := DefineSeverityLevel(levelEnv, now);
      if panicked {
        return;
      }
      DefineOutputFormat(formatEnv);
    }
  }

  /** The environment text for the format is trimmed and lower-cased before the comparison. */
  lemma FormatTextNormalised()
    ensures Normalise(" JSON\n") == "json"
    ensures Normalise("") != "json" && Normalise("plain") != "json"
  {
    var s := " JSON\n";
    assert !IsSpace('J');
    assert s[1..] == "JSON\n";
    assert TrimLeft(s) == "JSON\n";
    assert "JSON\n"[..4] == "JSON";
    assert TrimRight("JSON\n") == "JSON";
    assert ToLower("JSON") == "json";
    NormaliseEmpty();
    NormaliseIdentity("plain");
  }

  /**
   * Applies each of the eight setters twice in a row. once[k] is the
   * configuration after the first call of the k-th setter and twice[k]
   * that after the second: they agree for every setter, so each is
   * idempotent, and each first call changes its own field only.
   */
  method SettersIdempotent(l: Logger, b: bool) returns (ghost once: seq<Settings>, ghost twice: seq<Settings>)
    modifies l`threshold, l`format, l`escape
    ensures |once| == 8 && twice == once
    ensures once[0] == old(l.Current()).(threshold := Debug)
    ensures once[1] == once[0].(threshold := Info)
    ensures once[2] == once[1].(threshold := Warning)
    ensures once[3] == once[2].(threshold := Error)
    ensures once[4] == once[3].(threshold := Fatal)
    ensures once[5] == once[4].(format := Json)
    ensures once[6] == once[5].(format := Plain)
    ensures once[7] == once[6].(escape := b)
    ensures l.Current() == once[7]
  {
    l.SetSeverityLevelDebug();
    ghost var s0 := l.Current();
    l.SetSeverityLevelDebug();
    ghost var t0 := l.Current();
    l.SetSeverityLevelInfo();
    ghost var s1 := l.Current();
    l.SetSeverityLevelInfo();
    ghost var t1 := l.Current();
    l.SetSeverityLevelWarning();
    ghost var s2 := l.Current();
    l.SetSeverityLevelWarning();
    ghost var t2 := l.Current();
    l.SetSeverityLevelError();
    ghost var s3 := l.Current();
    l.SetSeverityLevelError();
    ghost var t3 := l.Current();
    l.SetSeverityLevelFatal();
    ghost var s4 := l.Current();
    l.SetSeverityLevelFatal();
    ghost var t4 := l.Current();
    l.SetOutputFormatJSON();
    ghost var s5 := l.Current();
    l.SetOutputFormatJSON();
    ghost var t5 := l.Current();
    l.SetOutputFormatPlainText();
    ghost var s6 := l.Current();
    l.SetOutputFormatPlainText();
    ghost var t6 := l.Current();
    l.EscapeMessageStringForJSON(b);
    ghost var s7 := l.Current();
    l.EscapeMessageStringForJSON(b);
    ghost var t7 := l.Current();
    once := [s0, s1, s2, s3, s4, s5, s6, s7];
    twice := [t0, t1, t2, t3, t4, t5, t6, t7];
  }
}
