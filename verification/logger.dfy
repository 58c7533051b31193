/** The `Log` class: a fixed threshold, a configuration, and the log call that turns a message into
    console and file effects. Console and file writes are returned as effect records, the clock is
    a timestamp argument, and the serialiser for non-string messages is a function argument. */
module Logger {
  import opened Optional
  import opened Levels
  import opened Colors
  import opened Config
  import opened Format

  /** A logger instance: its threshold, set once, and its current configuration. */
  datatype Log = Log(level: LogLevel, config: LogConfig)

  /** `new Log(level, config)`: the defaults, overridden by every own property of `config`.
      The source's default arguments are `Info` and the empty object. */
  function New(level: LogLevel, config: LogConfig): (l: Log)
    ensures l.level == level
    ensures l.config.useColors == if config.useColors.Absent? then Present(true) else config.useColors
    ensures l.config.timestamps == if config.timestamps.Absent? then Present(LogOnly) else config.timestamps
    ensures l.config.logFilePath == config.logFilePath
    ensures l.config.customColors == config.customColors
  {
    Log(level, Merge(Defaults, config))
  }

  /** `configure(patch)`: a shallow merge into the current configuration; the threshold stays. */
  function Configure(l: Log, patch: LogConfig): (r: Log)
    ensures r.level == l.level
    ensures patch == Empty ==> r == l
    ensures r.config.logFilePath == if patch.logFilePath.Absent? then l.config.logFilePath else patch.logFilePath
    ensures r.config.useColors == if patch.useColors.Absent? then l.config.useColors else patch.useColors
    ensures r.config.timestamps == if patch.timestamps.Absent? then l.config.timestamps else patch.timestamps
    ensures r.config.customColors == if patch.customColors.Absent? then l.config.customColors else patch.customColors
  {
    MergeIdentity(l.config);
    Log(l.level, Merge(l.config, patch))
  }

  /** One line appended to one file. */
  datatype Append = Append(path: string, content: string)

  /** What the file writer does: the configuration it leaves behind and the append, if any. */
  datatype FileStep = FileStep(config: LogConfig, append: Option<Append>)

  /** `writeToFile(line)`: when the directory is a non-empty string, one trailing slash is removed and
      stored back, and the file line goes to `log.log` in that directory; otherwise nothing happens. */
  function WriteToFile(c: LogConfig, line: string, ts: string): (r: FileStep)
    ensures r.append.Some? <==> FileDir(c).Some?
    ensures r.append.None? ==> r.config == c
    ensures r.append.Some? ==>
              var dir := StripTrailingSlash(c.logFilePath.value);
              && r.config == c.(logFilePath := Present(dir))
              && r.append.value.path == FilePath(dir)
              && r.append.value.content == FileLine(c, line, ts)
  {
    match FileDir(c)
    case None => FileStep(c, None)
    case Some(p) =>
      var dir := StripTrailingSlash(p);
      var c' := c.(logFilePath := Present(dir));
      FileStep(c', Some(Append(FilePath(dir), FileLine(c', line, ts))))
  }

  /** An effect of a log call: a console print of a line followed by the extra arguments, or an append
      to a file. */
  datatype Effect<V> =
    | Console(channel: ConsoleMethod, line: string, extra: seq<V>)
    | AppendFile(path: string, content: string)

  /** The logger after a call, and the effects of the call in order. */
  datatype Outcome<V> = Outcome(log: Log, effects: seq<Effect<V>>)

  /** `logMessage(level, message, extra)` at instant `ts`, serialising non-string messages with `ser`.
      A suppressed call does nothing; otherwise the call prints to the level's console method, then
      hands the uncoloured line to the file writer. */
  function LogMessage<V>(l: Log, level: LogLevel, message: Message<V>, extra: seq<V>,
                         ts: string, ser: V -> string): (r: Outcome<V>)
    ensures r.log.level == l.level
    ensures !ShouldLog(l.level, level) ==> r.log == l && r.effects == []
    ensures ShouldLog(l.level, level) ==>
              && 1 <= |r.effects| <= 2
              && r.effects[0].Console?
              && r.effects[0].channel == Method(level)
              && r.effects[0].extra == extra
    ensures |r.effects| == 2 <==> ShouldLog(l.level, level) && FileDir(l.config).Some?
    ensures |r.effects| == 2 ==> r.effects[1].AppendFile?
    ensures r.log.config == l.config.(logFilePath := r.log.config.logFilePath)
  {
    if !ShouldLog(l.level, level) then Outcome(l, [])
    else
      var code := ResolveColor(CustomColor(l.config, level), level);
      var line := FullMessage(l.config, level, Serialize(message, ser), ts);
      var shown := Console(Method(level), Colorize(ColorsOn(l.config), code, line), extra);
      var step := WriteToFile(l.config, line, ts);
      match step.append
      case None => Outcome(Log(l.level, step.config), [shown])
      case Some(a) => Outcome(Log(l.level, step.config), [shown, AppendFile(a.path, a.content)])
  }

  /** `info(message, ...extra)`: goes through only on an Info threshold, and prints with `console.log`. */
  function Info<V>(l: Log, message: Message<V>, extra: seq<V>, ts: string, ser: V -> string)
    : (r: Outcome<V>)
    ensures r.effects != [] <==> l.level == Levels.Info
    ensures r.effects != [] ==> r.effects[0].Console? && r.effects[0].channel == ConsoleLog
  {
    LogMessage(l, Levels.Info, message, extra, ts, ser)
  }

  /** `warn(message, ...extra)`: goes through unless the threshold is Error; prints with `console.warn`. */
  function Warn<V>(l: Log, message: Message<V>, extra: seq<V>, ts: string, ser: V -> string)
    : (r: Outcome<V>)
    ensures r.effects != [] <==> l.level != Levels.Error
    ensures r.effects != [] ==> r.effects[0].Console? && r.effects[0].channel == ConsoleWarn
  {
    LogMessage(l, Levels.Warn, message, extra, ts, ser)
  }

  /** `error(message, ...extra)`: always goes through, and prints with `console.error`. */
  function Error<V>(l: Log, message: Message<V>, extra: seq<V>, ts: string, ser: V -> string)
    : (r: Outcome<V>)
    ensures r.effects != []
    ensures r.effects[0].Console? && r.effects[0].channel == ConsoleError
  {
    LogMessage(l, Levels.Error, message, extra, ts, ser)
  }
}
