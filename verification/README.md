# lightlogging `Log` — a Dafny model

This project models the levelled logger `Log` from `index.ts`. A logger has two parts: a threshold
level, fixed at construction, and a configuration record that callers can change. One call to
`info`, `warn` or `error` goes through only if its level reaches the threshold. A call that goes
through does two things:

- it prints a `[LABEL] message` line to the level's console method, with a timestamp in "all" mode
  and wrapped in an ANSI colour when colours are on;
- when a log directory is configured, it appends the uncoloured line to `<dir>/log.log`, adding its
  own timestamp in "log-only" mode.

Each log call is a pure function `Logger.LogMessage`. It takes the logger, the level, the message,
the extra arguments, the instant of the call (an opaque string) and a serialiser for non-string
messages. It returns the logger afterwards and the call's effects in order: a `Console` record
(method, line, extra arguments) and optionally an `AppendFile` record (path, content).

Modules:

- `Optional`: `Option`, and `Slot`, the three states of an object property: missing, `undefined`, or set.
  The object spread `{...a, ...b}` copies every own key of `b`, even one that holds `undefined`.
- `Text`: substring and index helpers, and the escape character.
- `Levels`: `LogLevel`, the threshold test, labels, colour keys and console methods.
- `Colors`: the nine-entry colour table, the default colours, colour resolution, `Colorize`, and its
  inverse `Decolor`.
- `Config`: the configuration record, the defaults and the shallow merge.
- `Format`: message serialisation, the console line, the trailing-slash strip, the file path and the file line.
- `LineParse`: reads a logged line back into (timestamp, level, text). The logger never parses. These
  functions are the independent inverse that the formatting round-trip lemmas are stated against.
- `Logger`: the logger, its constructor, `configure`, `writeToFile`, `logMessage` and the three facades.
- `LoggerProperties`: properties of whole calls and of sequences of calls.

The model follows `index.ts`. It writes one file, always `<dir>/log.log`, and always appends to it.
It has no per-month directories, no retention pruning, no icons, no overwrite mode, and no
`logFilePath: true` form.

Two behaviours of the trailing-slash strip are proved as lemmas. The strip is written back into the
configuration on every call, so:

- with a directory ending in `//`, the path string handed to the file system changes between the
  first and the second call (`DoubledSlashMovesTarget`). A POSIX file system resolves both strings
  to the same file, so only the string changes;
- the directory `/` is written to once, as `/log.log`, and then never again, because the stored
  directory becomes the empty string, which is falsy (`RootDirWritesOnce`).

## Model

| member | source | states |
|---|---|---|
| Levels.ShouldLog | index.ts:74-76 | The threshold test accepts everything at an Info threshold and Error at every threshold. Otherwise it accepts only the threshold's own level. |
| Levels.ShouldLogTotalOrder | index.ts:3-7 | Info < Warn < Error is a total order: reflexive, transitive, total and antisymmetric. |
| Levels.Label | index.ts:124-140 | A level's label is a run of at least four capital letters. |
| Levels.Key | index.ts:145-147 | The custom colour key is the enumeration member's name in lower case: `info`, `warn` or `error`. |
| Levels.Method | index.ts:124-140 | Info prints with `console.log`, Warn with `console.warn` and Error with `console.error`, each level with its own. |
| Levels.LabelFacts | index.ts:124-147 | Labels, keys and console methods each identify their level. No label contains `]`. A level's key is its label in lower case. |
| Colors.ColorTableKeys | index.ts:20-30 | The colour table's keys are exactly the nine colour names. |
| Colors.ColorTableSize | index.ts:20-30 | The colour table has nine entries. |
| Colors.ColorTableCodes | index.ts:20-30 | Every code in the colour table is a run of digits. |
| Colors.DefaultColor | index.ts:124-140 | The default colours are the table's white for Info, yellow for Warn and red for Error. |
| Colors.ResolveColor | index.ts:143-156 | The code is the table's code for the custom colour exactly when the custom colour is a string naming a table key. Otherwise it is the level's default (37/33/31). It is always a digit code. |
| Colors.ResolveColorLaws | index.ts:149-156 | A name outside the table resolves like no custom colour. A table name gives the same code at every level. Naming a level's own default colour changes nothing. |
| Colors.Colorize | index.ts:109-114 | With colours off, the message is returned unchanged. With colours on, the message sits between an `ESC[` code `m` prefix and the reset sequence, and 7 characters are added beyond the code. |
| Colors.DecolorColorize | index.ts:109-114 | Colouring loses nothing. Decolouring recovers the code exactly when colours are on, and recovers the message in both cases. |
| Config.Merge | index.ts:66-68 | Each field of the result is the patch's when the patch has that key (even as `undefined`), and the base's otherwise. |
| Config.MergeIdentity | index.ts:66-68 | Merging `{}` changes nothing, and merging into `{}` copies the patch. |
| Config.MergeAssociative | index.ts:66-68 | Two successive merges equal one merge with the merged patch. |
| Config.MergeIdempotent | index.ts:66-68 | Applying the same patch twice equals applying it once. |
| Config.ColorsOn | index.ts:110 | Colours are on exactly when `useColors` reads as `true`. |
| Config.StampFile | index.ts:95 | The file line gets its own timestamp exactly when `timestamps` reads as "log-only", and then the console line has none. |
| Config.StampConsole | index.ts:162 | The console line is timestamped exactly when `timestamps` reads as "all". |
| Config.FileDir | index.ts:85 | A file is targeted exactly when `logFilePath` holds a non-empty string. |
| Config.CustomColor | index.ts:143-148 | The custom colour is the string stored under the level's key (`info`/`warn`/`error`). It is missing when `customColors` is missing or undefined, or has no string under that key. |
| Format.Serialize | index.ts:158-160 | A string message is used unchanged. Any other value is serialised. |
| Format.FullMessage | index.ts:158-165 | The line ends with `[LABEL] ` and the text, and starts with `[`. In "all" mode it starts with the `[ts] ` tag and is longer by exactly that tag. |
| Format.StripTrailingSlash | index.ts:86-91 | The result is a prefix of the directory. Exactly one `/` is removed when the directory ends with one; otherwise the directory is unchanged. |
| Format.FilePath | index.ts:98-99 | The path is the directory followed by `/log.log`. |
| Format.FileLine | index.ts:94-101 | The content ends with the line and a newline. It starts with a `[ts] ` tag exactly in "log-only" mode, and its length grows by that tag only then. |
| Format.FileLineContains | index.ts:94-101 | Whatever the mode, the file content contains the message text and ends with a newline. |
| LineParse.ParseFullMessage | index.ts:158-165 | The uncoloured console line reads back as level and text, with the timestamp present exactly in "all" mode. |
| LineParse.ParseFileLineOf | index.ts:94-101 | The file line reads back as level and text. It has exactly one timestamp in "log-only" and "all" modes and none otherwise, so the timestamp is never doubled. |
| Logger.New | index.ts:52-60 | The threshold is the given level. `useColors` defaults to true and `timestamps` to "log-only"; every key of the given object overrides. `logFilePath` and `customColors` are taken as given. |
| Logger.Configure | index.ts:66-68 | The threshold is unchanged and `configure({})` is a no-op. Each key present in the patch replaces the old value; absent keys keep theirs. |
| Logger.WriteToFile | index.ts:82-103 | An append happens exactly when the directory is a non-empty string. It goes to the slash-stripped directory's `log.log` with the file line. The stripped directory is stored back. Without an append the configuration is unchanged. |
| Logger.LogMessage | index.ts:122-171 | A suppressed call has no effect and leaves the logger unchanged. A call that goes through prints first, to the level's console method, with the extra arguments unchanged. It then appends to a file exactly when a directory is set. Only `logFilePath` can change, and the threshold never does. |
| Logger.Info | index.ts:178-180 | An info call has effects exactly on an Info threshold. It prints with `console.log`. |
| Logger.Warn | index.ts:187-189 | A warn call has effects exactly when the threshold is not Error. It prints with `console.warn`. |
| Logger.Error | index.ts:196-198 | An error call always has effects. It prints with `console.error`. |
| LoggerProperties.NewWithoutArguments | __tests__/Log.spec.ts:36-43 | A logger built without arguments has an Info threshold and exactly the defaults `{useColors: true, timestamps: "log-only"}`. |
| LoggerProperties.NewIsConfiguredDefaults | index.ts:52-68 | Construction equals configuring a logger that holds the defaults. |
| LoggerProperties.ConfigureComposes | __tests__/Log.spec.ts:45-55 | Two reconfigurations equal one with the merged patch. Repeating a patch changes nothing more. |
| LoggerProperties.InfoOnErrorLoggerIsSilent | __tests__/Log.spec.ts:57-62 | An info call on a logger built with an Error threshold has no effects and leaves the logger as it was. |
| LoggerProperties.EffectsIffShouldLog | index.ts:122-123 | A call has some effect exactly when its level's rank is at least the threshold's. |
| LoggerProperties.ConsoleLineRoundTrip | index.ts:142-167 | The printed line decolours to the resolved colour code exactly when colours are on. That code is the custom colour's table code, or else the level default. The uncoloured line reads back as label and message, with the timestamp exactly in "all" mode. |
| LoggerProperties.StringMessagePassesThrough | index.ts:158-160 | With colours and console timestamps off, a string message is printed as `[LABEL] ` followed by the string unchanged. |
| LoggerProperties.FileLineRoundTrip | index.ts:162-169 | The appended content reads back as label and message. It has one timestamp in "log-only" and "all" modes and none otherwise. |
| LoggerProperties.FileLineContainsMessage | __tests__/Log.spec.ts:64-73 | The appended content contains the serialised message and ends with a newline. |
| LoggerProperties.FileTarget | index.ts:85-101 | The file is `log.log` in the directory less one trailing slash. That stripped directory persists in the configuration. |
| LoggerProperties.PathStableAfterStrip | index.ts:86-91 | Once the stored directory has no trailing slash, a call writes to `<dir>/log.log` and leaves the logger unchanged. |
| LoggerProperties.DoubledSlashMovesTarget | index.ts:86-91 | With directory `x//`, the first call appends to the path string `x//log.log` and the second to `x/log.log`. |
| LoggerProperties.RootDirWritesOnce | index.ts:85-91 | With directory `/`, the first call appends to `/log.log` and stores the empty directory. The next call writes no file. |
| LoggerProperties.NoDirectoryNoFile | index.ts:85 | With no directory, an undefined one or an empty one, every effect is a console print. |
| LoggerProperties.ConfiguredDirectoryExample | __tests__/Log.spec.ts:64-73 | After `configure({logFilePath: "./logs", timestamps: "none"})`, an info call appends exactly `[INFO] This is a log message` and a newline to `./logs/log.log`. |

## Left out

- Console output and `fs.appendFileSync` are returned as effect records, not performed. An append
  that throws would propagate out of the call; that error path is not modelled.
- `new Date().toISOString()` is the `ts` argument. The source reads the clock twice in "all" mode,
  but only one reading reaches any output in each mode, so a single argument is exact. The
  round-trip lemmas assume the timestamp has no `]` and is not a label, which holds for ISO 8601
  instants.
- `JSON.stringify` of a non-string message is the caller-supplied `ser` function. The model makes no
  claim about what it produces (for example, for `Error` objects) and does not model it throwing.
- The string-or-stringify branch inside `writeToFile` is unreachable: it is only ever called with the
  already formatted line, a string. `WriteToFile` therefore takes a string.
- The process-wide default instance (`index.ts:201-202`) is `New(Info, Empty)`;
  `NewWithoutArguments` describes it.
- Runtime values outside the declared TypeScript types are not modelled. These include a numeric
  level that is not an enumeration member, a `timestamps` string other than the three modes, and
  `customColors` that is not an object. A custom colour that is not a string is read as missing.
- The shallow spreads at `index.ts:59` and `index.ts:67` copy the reference to the `customColors`
  object, not the object. A caller that later mutates that object changes the logger's colours
  without calling `configure`. The model treats configuration values as immutable, so this
  aliasing is not modelled.
- `dist/index.js` and `dist/index.d.ts` are a compiled build and type declarations, and are not
  modelled. The build differs from `index.ts`: it does not stringify non-string messages.
