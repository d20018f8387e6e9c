# chatty — a verified model of the logger core

chatty is a small Go logging package. A record has a severity level
(debug, info, warning, error or fatal), a message and optional key/value
attachments. It is written to standard output as one JSON object or as one
tab-separated line of plain text. A process-wide configuration holds three
values:

- the severity threshold, below which records are dropped;
- the output format;
- a flag that sends JSON records through a real JSON encoder.

At start-up the configuration is read from the environment variables
`LOG_SEVERITY_LEVEL` and `LOG_OUTPUT_FORMAT`. The severity text is parsed
leniently: surrounding white space and ASCII case are ignored (white
space inside the name is kept and compared). The empty name is an error
("empty severity level") and keeps the current threshold; a non-empty
name of white space only normalises to "" and selects debug. Otherwise a
non-empty prefix of at most four characters of a level's mnemonic
selects that level (the mnemonics "debug", "verbose", "info", "normal",
"warning", "error", "fatal" and "critical" all start with different
letters, so such a prefix fits only one of them); at five characters
only "debug" and "verbo" are accepted (both select debug); every longer
text, and every other five-character text, makes the parser abort on an
out-of-range slice.

This project models that core in Dafny:

- `levels.dfy` (module `Levels`): the level and format names, the
  ranking of levels, and the severity-name parser `GuessSeverityLevel`.
  The parser keeps the source's out-of-range slice as an explicit outcome.
- `pairs.dfy` (module `Pairs`): the attachment pair and the conversion of
  an attachment map into pairs, with the map's visiting order left open.
- `render.dfy` (module `Render`): the JSON and plain-text renderers. Each
  is a loop method proved equal to a recursive definition. The JSON
  encoder is a collaborator whose failure falls back to the concatenated
  form.
- `logging.dfy` (module `Logging`): the configuration as the class
  `Logger`, with its setters, the start-up initialisation and the emitter
  `Write`. `Write` keeps the last record and a ghost history of
  everything written.
- `global.dfy` (module `Global`): the global setters. The five
  `SetGlobalSeverityLevel<Level>` setters and `SetGlobalOutputFormatJSON`
  and `SetGlobalOutputFormatPlainText` also store the value in a modelled
  process environment, whose store may fail. `SetGlobalOutputFormat`
  stores only through those two, so an unknown name stores nothing, and
  `SetGlobalSeverityLevel` never stores anything.
- `kv.dfy` (module `KeyValue`): the `*KV` entry points.

A Dafny `string` is a sequence of characters, and the model measures a
name by its number of characters. That equals Go's `len`, a byte count,
only when every character is ASCII: ASCII names are modelled exactly, and
"## Left out" says what differs for others.

The timestamp is an input string. Whether storing an environment variable
fails is an input too. A Go panic is modelled as a `panicked` result that
leaves the state untouched.

## Model

| member | source | states |
|---|---|---|
| Levels.FormatName | chatty.go:22-23 | the two format constants are at least four characters long, and only JSON is named "json" |
| Levels.LevelName | chatty.go:16-20 | each level is written by its own constant name ("debug" … "fatal"); distinct levels have distinct names (`LevelNameInjective`) |
| Levels.LevelNameInjective | chatty.go:16-20 | two levels with the same name are the same level |
| Levels.Rank | write.go:10-16 | the rank table: debug is the only level of rank 0, fatal the only one of rank 4, all ranks at most 4 |
| Levels.RankInjective | write.go:10-16 | the ranking is strict: distinct levels have distinct ranks |
| Levels.ToLowerSpec | chatty.go:51 | lower-casing keeps the length and maps every character through ASCII lower-casing |
| Levels.TrimLeftSpec | chatty.go:51 | leading trimming drops exactly the white space before the first other character |
| Levels.TrimRightSpec | chatty.go:51 | trailing trimming drops exactly the white space after the last other character |
| Levels.TrimSpaceSpec | chatty.go:51 | trimming keeps a contiguous middle slice that neither starts nor ends with white space, and everything dropped is white space |
| Levels.MatchFrom | chatty.go:47-64 | matching over the ordered mnemonics yields a parsed level, a slice out of range, or the unchanged fallback |
| Levels.Normalise | chatty.go:51 | the compared form is no longer than the name |
| Levels.NormaliseSpec | chatty.go:51 | the compared form has no upper-case ASCII letter and neither starts nor ends with white space |
| Levels.ErrorText | chatty.go:44-66 | both parse errors have non-empty texts that tell them apart, and the unknown-level text ends with the name given |
| Levels.GuessSeverityLevel | chatty.go:42-67 | empty input gives the current threshold with the "empty severity level" error; every fallback carries the current threshold, and for non-empty input the "unknown severity level" error with the input |
| Levels.MatchFromFitting | chatty.go:47-64 | when the text fits in every mnemonic, the first mnemonic it is a prefix of wins, and with none the fallback is returned |
| Levels.MatchFromParsed | chatty.go:47-64 | a parsed level is the level of some mnemonic the text is a prefix of |
| Levels.GuessParsedIsPrefix | chatty.go:51-63 | every level the parser accepts is named by a mnemonic that the trimmed, lower-cased input is a prefix of |
| Levels.PrefixFitsOneMnemonic | chatty.go:53-63 | a non-empty text is a prefix of at most one mnemonic: the mnemonics start with pairwise different letters |
| Levels.FirstHit | chatty.go:53-63 | if some mnemonic has the text as a prefix, there is a first such mnemonic in case order |
| Levels.MatchShort | chatty.go:47-64 | a text of at most four characters never slices out of range; the first mnemonic it prefixes wins, otherwise the fallback |
| Levels.GuessShortName | chatty.go:42-67 | a non-empty name normalising to at most four characters never panics, and resolves to the first mnemonic in case order or to the unknown-level fallback |
| Levels.GuessNormalName | chatty.go:51-64 | a name with no white space and no upper-case letter is matched as it is |
| Levels.NormaliseIdentity | chatty.go:51 | a text with no white space and no upper-case letter is its own normal form |
| Levels.GuessDebugPrefix | chatty.go:47-55 | every non-empty name whose normal form is a prefix of "debug" selects debug without error |
| Levels.GuessLongName | chatty.go:48-54 | a name normalising to more than five characters panics on the first comparison, with "debug" |
| Levels.GuessFiveCharName | chatty.go:48-56 | a five-character normal form selects debug when it is "debug" or "verbo", and otherwise panics on "info" |
| Levels.GuessIgnoresCaseAndSpace | chatty.go:51-55 | "  DeB " selects debug |
| Levels.GuessBlankName | chatty.go:43-54 | every non-empty name made only of white space passes the emptiness check, normalises to "" and selects debug without error |
| Levels.TrimLeftAllSpace | chatty.go:51 | a text made only of white space is trimmed away completely |
| Levels.GuessLetter | chatty.go:47-64 | a single letter that is neither white space nor upper case selects the level of the first mnemonic, in case order, starting with it |
| Levels.GuessInitialsLow | chatty.go:53-57 | "d" and "v" select debug; "i" and "n" select info |
| Levels.GuessInitialsWarningError | chatty.go:58-61 | "w" selects warning; "e" selects error, not an earlier case |
| Levels.GuessInitialsFatal | chatty.go:62-63 | "f" and "c" select fatal |
| Levels.GuessAcceptedFullNames | chatty.go:54-57 | the full names "debug" and "info" are accepted |
| Levels.GuessFiveCharFullNames | chatty.go:48-56 | the full names "error" and "fatal" panic on the comparison with "info" |
| Levels.GuessLongFullNames | chatty.go:48-54 | the full names "warning" and "critical" panic on the comparison with "debug" |
| Levels.GuessUnknownName | chatty.go:66 | "xyz" falls back to the current threshold with the error "unknown severity level xyz" |
| Levels.GuessInnerSpaceKept | chatty.go:51-66 | only the ends are trimmed: "d e" keeps its inner space and falls back with the unknown-level error |
| Pairs.ToText | write.go:40-44 | a string attachment is written as it is; any other value by its formatted text |
| Pairs.KvMapAsLogPairs | logpair.go:12-25 | the result lists the map: one pair per entry, with the map's value at each key, keys pairwise distinct, length equal to the map's size |
| Pairs.ListingOfEmptyMap | logpair.go:12-25 | an empty or nil map yields no pairs |
| Pairs.DistinctKeysCount | logpair.go:15-22 | in a listing without repeated keys each pair occurs at most once |
| Pairs.ListingsArePermutations | logpair.go:15 | any two listings of one map are permutations of each other, so only the order is unspecified |
| Render.JsonString | write.go:28-52 | the loop builds exactly the concatenated JSON record, members in the order of the pairs |
| Render.JsonRecordNoPairs | write.go:29-32 | without pairs the record is exactly `{"ts":…,"level":…,"msg":…}` with no escaping |
| Render.JsonFieldsAppend | write.go:39-49 | the members of two runs of pairs are those of the first followed by those of the second |
| Render.JsonRecordAppend | write.go:39-51 | each extra pair adds one flat, quoted `,"key":"value"` member just before the closing brace |
| Render.JsonMarshalledString | write.go:54-79 | the encoder's text when it succeeds; the concatenated JSON record when it fails |
| Render.PlainString | write.go:81-104 | the loop builds exactly the plain record |
| Render.PlainRecordNoPairs | write.go:82-86 | without pairs: timestamp, level and message separated by tabs, then a newline |
| Render.PlainFieldsAppend | write.go:91-101 | the segments of two runs of pairs are those of the first followed by those of the second |
| Render.PlainFieldsStart | write.go:91-101 | the segments of a non-empty run start with the `,\tkey=value` segment of its first pair |
| Render.PlainRecordDropsHeader | write.go:88-103 | with pairs the record is only the segments and a newline; the timestamp, level and message are not part of it |
| Logging.RecordText | write.go:119-127 | a plain-text record ends with a newline; a JSON record built by concatenation (escaping off, or the encoder failed) starts with `{` and ends with `}` |
| Logging.Emitted | write.go:106-127 | a record is emitted exactly when the message or the pairs are non-empty and the level ranks at least as high as the threshold, and the record emitted is the one the configured format renders |
| Logging.EmptyRecordSuppressed | write.go:107-109 | an empty message with no pairs writes nothing at any threshold |
| Logging.LowerThresholdKeepsRecord | write.go:111-113 | lowering the threshold never suppresses or changes a record that was written |
| Logging.ExtremeLevels | write.go:111-113 | a fatal record passes every threshold; every level passes a debug threshold |
| Logging.WarningThresholdExample | write.go:111-113 | under a warning threshold info is dropped and error is written |
| Logging.FormatDispatch | write.go:119-127 | plain uses the plain renderer; JSON without escaping uses concatenation; JSON with escaping uses the encoder, or concatenation when it fails |
| Logging.JsonHelloExample | write.go:106-133 | info "hello" in unescaped JSON is exactly `{"ts":"<now>","level":"info","msg":"hello"}` |
| Logging.FatalPlainText | write.go:125-126 | a fatal plain-text record is `<now>\tfatal\t<msg>\n`: the level text is "fatal" |
| Logging.FatalJsonText | write.go:119-121 | a fatal unescaped JSON record has "fatal" as the value of its level member |
| Logging.Logger.constructor | chatty.go:29-34 | the initial configuration is info, plain, no escaping; nothing written yet |
| Logging.Logger.SetSeverityLevelDebug | config.go:27-29 | the threshold becomes debug; nothing else changes |
| Logging.Logger.SetSeverityLevelInfo | config.go:32-34 | the threshold becomes info; nothing else changes |
| Logging.Logger.SetSeverityLevelWarning | config.go:37-39 | the threshold becomes warning; nothing else changes |
| Logging.Logger.SetSeverityLevelError | config.go:42-44 | the threshold becomes error; nothing else changes |
| Logging.Logger.SetSeverityLevelFatal | config.go:47-49 | the threshold becomes fatal; nothing else changes |
| Logging.Logger.SetOutputFormatJSON | config.go:52-54 | the format becomes JSON; nothing else changes |
| Logging.Logger.SetOutputFormatPlainText | config.go:57-59 | the format becomes plain; nothing else changes |
| Logging.Logger.EscapeMessageStringForJSON | chatty.go:128-130 | the escape flag becomes the argument; nothing else changes |
| Logging.Logger.Write | write.go:106-134 | configuration unchanged; with no emission the last record and output are unchanged; otherwise the last record is the rendered record and exactly that record is appended to the output |
| Logging.Logger.DefineSeverityLevel | config.go:8-14 | the threshold becomes the parser's level; on a parse error it is unchanged and the error text is written at error level; on a slice out of range it panics with nothing changed |
| Logging.Logger.DefineOutputFormat | config.go:16-24 | the format is JSON exactly when the trimmed, lower-cased text is "json", plain otherwise (empty included) |
| Logging.Logger.Init | chatty.go:36-40 | severity first, then format, with the outcomes of both; a panic in the first leaves everything unchanged |
| Logging.FormatTextNormalised | config.go:17-23 | " JSON\n" selects JSON; "" and "plain" do not |
| Logging.SettersIdempotent | config.go:27-59 | each of the seven config.go setters and the escape setter, applied twice in a row, leaves the state of its first application; each first application changes only its own field |
| Global.Environment.Setenv | global.go:10 | the variable is stored unless the store fails; the failure is returned |
| Global.Stored | global.go:10 | after a successful store the variable holds the value; after a failure the environment is unchanged; other variables are untouched |
| Global.SetenvMessage | global.go:11 | the error text starts with "chatty.", then the setter's name, and ends with the store's error |
| Global.Reported | global.go:10-12 | a record is reported only for a failed store under a non-fatal threshold, and it is the error-level record of the Setenv message |
| Global.ReportedIff | global.go:10-12 | a successful store is never reported; a failed one is reported exactly when the threshold is not fatal |
| Global.StoreOrReport | global.go:10-12 | configuration unchanged; the environment as stored; the failure reported at error level |
| Global.SetGlobalSeverityLevelDebug | global.go:9-15 | the threshold ends as debug whether or not the store failed; the environment holds "debug" unless the store failed; a failure is reported under the old configuration |
| Global.SetGlobalSeverityLevelInfo | global.go:18-24 | as above, with info |
| Global.SetGlobalSeverityLevelWarning | global.go:27-33 | as above, with warning |
| Global.SetGlobalSeverityLevelError | global.go:36-42 | as above, with error |
| Global.SetGlobalSeverityLevelFatal | global.go:45-51 | as above, with fatal |
| Global.SetGlobalSeverityLevel | global.go:54-72 | the threshold becomes the parser's level; on a parse error the error is written and the old threshold re-applied, so it is unchanged; a slice out of range panics with nothing changed; the environment is not touched |
| Global.SetGlobalOutputFormatJSON | global.go:75-81 | the format ends as JSON whether or not the store failed; the environment holds "json" unless the store failed; a failure is reported |
| Global.SetGlobalOutputFormatPlainText | global.go:84-90 | the format ends as plain whether or not the store failed; the environment holds "plain" unless the store failed; a failure is reported |
| Global.SetGlobalOutputFormat | global.go:93-101 | exactly "json" or "plain" (case-sensitive) applies that format; any other text leaves format and environment unchanged and writes "unknown format given: …" at error level |
| Global.StoredSeverityReread | global.go:9-51 | the stored "debug" and "info" are parsed back to the same level, but the stored "warning", "error" and "fatal" make the parser panic at the next start-up |
| Global.StoredFormatReread | global.go:75-90 | each stored format name selects its own format at the next start-up |
| KeyValue.WriteKV | logpair.go:27-50 | the map is listed and the record for that listing is written at the given level; configuration unchanged |
| KeyValue.DebugKV | logpair.go:28-30 | writes the map's listing at debug |
| KeyValue.InfoKV | logpair.go:33-35 | writes the map's listing at info |
| KeyValue.WarnKV | logpair.go:38-40 | writes the map's listing at warning |
| KeyValue.ErrorKV | logpair.go:43-45 | writes the map's listing at error |
| KeyValue.FatalKV | logpair.go:48-50 | writes the map's listing at fatal and returns normally |
| KeyValue.EmptyMapEmptyMessage | logpair.go:12-25 | an empty message with an empty map writes nothing at any level |
| KeyValue.NonEmptyMapWritten | logpair.go:27-50 | a non-empty map is written even with an empty message, when the level passes the threshold |

Where the package's documentation and its code disagree, the model follows
the code:

- In a JSON record built by concatenation (escaping off, or the encoder
  failed), the attachments are flat members of the record and are not
  nested under a `details` object (write.go:39-51). With escaping on, the
  encoder's record nests them under `details` (write.go:61-69).
- The comment on `SetGlobalSeverityLevel` (global.go:53) says it changes
  the process environment, but the code (global.go:54-72) only parses the
  name and sets the threshold. The model stores nothing.
- A plain-text record with attachments has no timestamp, level or message
  (write.go:103).
- A fatal record is labelled "fatal".
- The full names "warning", "error" and "fatal", and the alternatives
  "verbose", "normal" and "critical", are not accepted. The slice in
  chatty.go:48 goes out of range for them.

The escape flag read by the emitter (`escapeInputForJSON`, write.go:120)
is not declared in the files modelled here. The model takes it to be the
flag set by `EscapeMessageStringForJSON` (chatty.go:128-130).

## Left out

- Reading environment variables and printing to standard output: the
  values read are inputs, and the output is a ghost history of records.
- `time.Now` and RFC 3339 formatting: the timestamp is an input string.
- The internals of `json.Marshal`: the encoder is an uninterpreted
  function. Its `details` nesting and key order are not modelled.
- Render.JsonMarshalledString: on encoder failure the model does not write
  the extra error record (write.go:73). Writing it would re-enter the
  emitter with the same encoder.
- Logging.Logger.Write: with escaping on and a failing encoder, the code
  writes the ErrorErr record and then the fallback record; the model
  writes only the fallback record.
- The mutex around the last record, and all concurrency.
- `os.Exit` in `Fatal`, `FatalErr` and `Fatalf`.
- The plain `Debug`…`Fatal` entry points and the `fmt.Sprintf` formatting
  of the `*f` entry points. They are not part of this model.
- `%v` formatting of non-string attachment values: a value carries its
  text.
- Levels.MatchFrom: the comparison counts characters, which equals Go's
  byte count only for ASCII names. A name with multi-byte characters such
  as "ééé" has `len` 6 in Go and makes `"debug"[:6]` panic, where the
  model, counting 3 characters, falls back to "unknown severity level".
- Unicode case folding and white space: lower-casing covers ASCII letters,
  and trimming covers ASCII white space.
- `writeInternalError` and the `WriteString` error branches: writing to a
  string builder cannot fail.
- kv.go: the `*KV` entry points of logpair.go are modelled instead.
- The duplicate definitions in chatty.go (lines 69-130, 132-159 and
  237-333). Each operation is modelled once, from config.go, global.go and
  write.go. The exception is `EscapeMessageStringForJSON`, which exists
  only in chatty.go.
- The `outputTemplateDefault` variable of chatty.go: no emitter in the
  model reads it.
