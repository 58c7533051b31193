/** Properties of whole log calls: what is printed and written, and how the configuration evolves
    across calls. */
module LoggerProperties {
  import opened Optional
  import opened Text
  import opened Levels
  import opened Colors
  import opened Config
  import opened Format
  import opened LineParse
  import opened Logger

  /** Constructing with no arguments gives an Info threshold and exactly the defaults. */
  lemma NewWithoutArguments()
    ensures New(Levels.Info, Empty) == Log(Levels.Info, Defaults)
    ensures Defaults.useColors == Present(true) && Defaults.timestamps == Present(LogOnly)
    ensures Defaults.logFilePath.Absent? && Defaults.customColors.Absent?
  {
  }

  /** Construction is the defaults followed by one reconfiguration with the given object. */
  lemma NewIsConfiguredDefaults(level: LogLevel, c: LogConfig)
    ensures New(level, c) == Configure(Log(level, Defaults), c)
  {
  }

  /** Two reconfigurations are one with the merged patch, and repeating a patch changes nothing more. */
  lemma ConfigureComposes(l: Log, a: LogConfig, b: LogConfig)
    ensures Configure(Configure(l, a), b) == Configure(l, Merge(a, b))
    ensures Configure(Configure(l, a), a) == Configure(l, a)
  {
    MergeAssociative(l.config, a, b);
    MergeIdempotent(l.config, a);
  }

  /** The console effect of a call that goes through, in terms of the formatting functions. */
  lemma ConsoleEffect<V>(l: Log, level: LogLevel, m: Message<V>, extra: seq<V>,
                         ts: string, ser: V -> string)
    requires ShouldLog(l.level, level)
    ensures LogMessage(l, level, m, extra, ts, ser).effects[0]
         == Console(Method(level),
                    Colorize(ColorsOn(l.config), ResolveColor(CustomColor(l.config, level), level),
                             FullMessage(l.config, level, Serialize(m, ser), ts)),
                    extra)
  {
  }

  /** The file effect of a call that goes through to a directory, in terms of the formatting functions. */
  lemma FileEffect<V>(l: Log, level: LogLevel, m: Message<V>, extra: seq<V>,
                      ts: string, ser: V -> string)
    requires ShouldLog(l.level, level) && FileDir(l.config).Some?
    ensures
      var r := LogMessage(l, level, m, extra, ts, ser);
      var dir := StripTrailingSlash(l.config.logFilePath.value);
      && r.effects[1]
         == AppendFile(FilePath(dir), FileLine(l.config, FullMessage(l.config, level, Serialize(m, ser), ts), ts))
      && r.log == Log(l.level, l.config.(logFilePath := Present(dir)))
  {
  }

  /** A suppressed call leaves the logger unchanged and has no effect at all; in particular, an Info
      call on a logger built with an Error threshold does nothing. */
  lemma InfoOnErrorLoggerIsSilent<V>(c: LogConfig, m: Message<V>, extra: seq<V>,
                                     ts: string, ser: V -> string)
    ensures Logger.Info(New(Levels.Error, c), m, extra, ts, ser) == Outcome(New(Levels.Error, c), [])
  {
  }

  /** A call has an effect exactly when its level reaches the threshold. */
  lemma EffectsIffShouldLog<V>(l: Log, level: LogLevel, m: Message<V>, extra: seq<V>,
                               ts: string, ser: V -> string)
    ensures LogMessage(l, level, m, extra, ts, ser).effects != [] <==> Rank(level) >= Rank(l.level)
  {
  }

  /** The console line: uncoloured, it is the label tag and the message text, behind the timestamp tag
      exactly in "all" mode; coloured, it carries the custom colour's code when the custom colour
      names a table entry and the level's default code otherwise. */
  lemma ConsoleLineRoundTrip<V>(l: Log, level: LogLevel, m: Message<V>, extra: seq<V>,
                                ts: string, ser: V -> string)
    requires ShouldLog(l.level, level)
    requires WellFormedTimestamp(ts)
    ensures
      var line := LogMessage(l, level, m, extra, ts, ser).effects[0].line;
      var custom := CustomColor(l.config, level);
      var code := if custom.Some? && custom.value in ColorNameToAnsi
                  then ColorNameToAnsi[custom.value] else DefaultColor(level);
      && Decolor(line).0 == (if ColorsOn(l.config) then Some(code) else None)
      && ParseLine(Decolor(line).1)
         == Some(Entry(if StampConsole(l.config) then Some(ts) else None, level, Serialize(m, ser)))
  {
    var text := Serialize(m, ser);
    var code := ResolveColor(CustomColor(l.config, level), level);
    ConsoleEffect(l, level, m, extra, ts, ser);
    DecolorColorize(ColorsOn(l.config), code, FullMessage(l.config, level, text, ts));
    ParseFullMessage(l.config, level, text, ts);
  }

  /** A string message reaches the console line unchanged, right after the level's label tag. */
  lemma StringMessagePassesThrough<V>(l: Log, level: LogLevel, s: string, extra: seq<V>,
                                      ts: string, ser: V -> string)
    requires ShouldLog(l.level, level)
    requires !ColorsOn(l.config) && !StampConsole(l.config)
    ensures LogMessage(l, level, Str(s), extra, ts, ser).effects[0].line == "[" + Label(level) + "] " + s
  {
  }

  /** The file line reads back as the label and message behind exactly one timestamp tag in "log-only"
      and "all" modes, and behind none otherwise. */
  lemma {:induction false} FileLineRoundTrip<V>(l: Log, level: LogLevel, m: Message<V>,
                                                extra: seq<V>, ts: string, ser: V -> string)
    requires ShouldLog(l.level, level) && FileDir(l.config).Some?
    requires WellFormedTimestamp(ts)
    ensures
      var content := LogMessage(l, level, m, extra, ts, ser).effects[1].content;
      var stamped := StampConsole(l.config) || StampFile(l.config);
      ParseFileLine(content) == Some(Entry(if stamped then Some(ts) else None, level, Serialize(m, ser)))
  {
    FileEffect(l, level, m, extra, ts, ser);
    ParseFileLineOf(l.config, level, Serialize(m, ser), ts);
  }

  /** Whatever the timestamp, the file line contains the serialised message and ends with a newline. */
  lemma {:induction false} FileLineContainsMessage<V>(l: Log, level: LogLevel, m: Message<V>,
                                                      extra: seq<V>, ts: string, ser: V -> string)
    requires ShouldLog(l.level, level) && FileDir(l.config).Some?
    ensures
      var content := LogMessage(l, level, m, extra, ts, ser).effects[1].content;
      Contains(content, Serialize(m, ser)) && EndsWith(content, "\n")
  {
    FileEffect(l, level, m, extra, ts, ser);
    FileLineContains(l.config, level, Serialize(m, ser), ts);
  }

  /** The file written to is `log.log` inside the configured directory less one trailing slash, and
      that shortened directory is what the configuration holds afterwards. */
  lemma FileTarget<V>(l: Log, level: LogLevel, m: Message<V>, extra: seq<V>,
                      ts: string, ser: V -> string)
    requires ShouldLog(l.level, level) && FileDir(l.config).Some?
    ensures
      var r := LogMessage(l, level, m, extra, ts, ser);
      var dir := StripTrailingSlash(l.config.logFilePath.value);
      && r.effects[1].path == dir + "/log.log"
      && r.log.config.logFilePath == Present(dir)
  {
    FileEffect(l, level, m, extra, ts, ser);
  }

  /** Once the stored directory no longer ends with a slash, later calls write to the same file and
      leave the configuration as it is. */
  lemma {:induction false} PathStableAfterStrip<V>(l: Log, level: LogLevel, m: Message<V>,
                                                   extra: seq<V>, ts: string, ser: V -> string)
    requires ShouldLog(l.level, level) && FileDir(l.config).Some?
    requires !EndsWith(l.config.logFilePath.value, "/")
    ensures
      var r := LogMessage(l, level, m, extra, ts, ser);
      r.log == l && r.effects[1].path == l.config.logFilePath.value + "/log.log"
  {
    var p := l.config.logFilePath.value;
    FileTarget(l, level, m, extra, ts, ser);
    assert l.config.(logFilePath := Present(p)) == l.config;
  }

  /** The two file paths of the example below, spelled out. */
  lemma DoubledSlashPaths()
    ensures "x/" + "/log.log" == "x//log.log" && "x" + "/log.log" == "x/log.log"
  {
  }

  /** The directories the two examples below go through, one slash at a time. */
  lemma StripExamples()
    ensures StripTrailingSlash("x//") == "x/" && StripTrailingSlash("x/") == "x"
    ensures StripTrailingSlash("/") == ""
  {
    assert EndsWith("x//", "/") && EndsWith("x/", "/") && EndsWith("/", "/");
  }

  /** With the directory "x//", the first call appends to the path string "x//log.log" and the second,
      reading the stored "x/", to "x/log.log": the string handed to the file system changes between
      calls, although a POSIX file system resolves both to the same file. */
  lemma {:induction false} DoubledSlashMovesTarget<V>(l: Log, level: LogLevel, m: Message<V>,
                                                      extra: seq<V>, ts: string, ser: V -> string)
    requires ShouldLog(l.level, level)
    requires l.config.logFilePath == Present("x//")
    ensures
      var r1 := LogMessage(l, level, m, extra, ts, ser);
      var r2 := LogMessage(r1.log, level, m, extra, ts, ser);
      && |r1.effects| == 2 && r1.effects[1].path == "x//log.log"
      && |r2.effects| == 2 && r2.effects[1].path == "x/log.log"
  {
    StripExamples();
    DoubledSlashPaths();
    FileTarget(l, level, m, extra, ts, ser);
    var r1 := LogMessage(l, level, m, extra, ts, ser);
    assert r1.log.config.logFilePath == Present("x/");
    FileTarget(r1.log, level, m, extra, ts, ser);
  }

  /** With the directory "/", the first call appends to "/log.log" and stores the empty directory, so
      every later call writes no file at all. */
  lemma {:induction false} RootDirWritesOnce<V>(l: Log, level: LogLevel, m: Message<V>,
                                                extra: seq<V>, ts: string, ser: V -> string)
    requires ShouldLog(l.level, level)
    requires l.config.logFilePath == Present("/")
    ensures
      var r1 := LogMessage(l, level, m, extra, ts, ser);
      var r2 := LogMessage(r1.log, level, m, extra, ts, ser);
      && |r1.effects| == 2 && r1.effects[1].path == "/log.log"
      && r1.log.config.logFilePath == Present("")
      && |r2.effects| == 1
  {
    StripExamples();
    FileTarget(l, level, m, extra, ts, ser);
    var r1 := LogMessage(l, level, m, extra, ts, ser);
    assert r1.log.config.logFilePath == Present("");
    assert FileDir(r1.log.config).None?;
  }

  /** A logger without a directory, or with the empty one, never writes a file. */
  lemma NoDirectoryNoFile<V>(l: Log, level: LogLevel, m: Message<V>, extra: seq<V>,
                             ts: string, ser: V -> string)
    requires l.config.logFilePath.Absent? || l.config.logFilePath.Undefined? || l.config.logFilePath == Present("")
    ensures forall e :: e in LogMessage(l, level, m, extra, ts, ser).effects ==> e.Console?
  {
  }

  /** The path of the example below, spelled out. */
  lemma ExamplePath()
    ensures FilePath("./logs") == "./logs/log.log"
  {
  }

  /** The file line of the example below, spelled out. */
  lemma ExampleLine()
    ensures "[INFO] " + "This is a log message" + "\n" == "[INFO] This is a log message\n"
  {
  }

  /** The label tag of the example below, spelled out. */
  lemma ExampleTag()
    ensures Tag("INFO") == "[INFO] "
  {
  }

  /** A fresh logger reconfigured with the directory "./logs" and no timestamps appends exactly the
      labelled message and a newline to "./logs/log.log". */
  lemma ConfiguredDirectoryExample<V>(ts: string, ser: V -> string)
    ensures
      var l := Configure(New(Levels.Info, Empty), LogConfig(Present("./logs"), Absent, Present(NoTimestamps), Absent));
      var r := Logger.Info(l, Str("This is a log message"), [], ts, ser);
      && |r.effects| == 2
      && r.effects[1] == AppendFile("./logs/log.log", "[INFO] This is a log message\n")
  {
    var l := Configure(New(Levels.Info, Empty), LogConfig(Present("./logs"), Absent, Present(NoTimestamps), Absent));
    var text := "This is a log message";
    assert l.config.logFilePath == Present("./logs") && !StampConsole(l.config) && !StampFile(l.config);
    FileEffect(l, Levels.Info, Message<V>.Str(text), [], ts, ser);
    assert StripTrailingSlash("./logs") == "./logs";
    assert FullMessage(l.config, Levels.Info, text, ts) == Tag("INFO") + text;
    ExamplePath();
    ExampleTag();
    ExampleLine();
  }
}
