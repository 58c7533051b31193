/** The logger's configuration record, its defaults and the shallow merge used by construction
    and reconfiguration. */
module Config {
  import opened Optional
  import opened Levels

  /** The three timestamp modes: "none", "log-only" (file lines only) and "all". */
  datatype Timestamps = NoTimestamps | LogOnly | All

  /** The custom colours object: its own properties that hold strings, by key. A property holding
      anything other than a string is left out, since it is never used as a colour name. */
  type ColorOverrides = map<string, string>

  /** The configuration object: each property may be missing, undefined, or set. */
  datatype LogConfig = LogConfig(
    logFilePath: Slot<string>,
    useColors: Slot<bool>,
    timestamps: Slot<Timestamps>,
    customColors: Slot<ColorOverrides>
  )

  /** The empty object `{}`. */
  const Empty: LogConfig := LogConfig(Absent, Absent, Absent, Absent)

  /** The defaults every logger starts from: colours on, timestamps in the file only. */
  const Defaults: LogConfig := LogConfig(Absent, Present(true), Present(LogOnly), Absent)

  /** `{...base, ...patch}`: every own property of `patch` replaces the one in `base`. */
  function Merge(base: LogConfig, patch: LogConfig): (r: LogConfig)
    ensures r.logFilePath == if patch.logFilePath.Absent? then base.logFilePath else patch.logFilePath
    ensures r.useColors == if patch.useColors.Absent? then base.useColors else patch.useColors
    ensures r.timestamps == if patch.timestamps.Absent? then base.timestamps else patch.timestamps
    ensures r.customColors == if patch.customColors.Absent? then base.customColors else patch.customColors
  {
    LogConfig(
      Spread(base.logFilePath, patch.logFilePath),
      Spread(base.useColors, patch.useColors),
      Spread(base.timestamps, patch.timestamps),
      Spread(base.customColors, patch.customColors))
  }

  /** Merging the empty object changes nothing, and merging into it copies. */
  lemma MergeIdentity(c: LogConfig)
    ensures Merge(c, Empty) == c
    ensures Merge(Empty, c) == c
  {
  }

  /** Successive merges compose into one merge. */
  lemma MergeAssociative(a: LogConfig, b: LogConfig, c: LogConfig)
    ensures Merge(Merge(a, b), c) == Merge(a, Merge(b, c))
  {
  }

  /** Applying the same patch twice is the same as applying it once. */
  lemma MergeIdempotent(a: LogConfig, b: LogConfig)
    ensures Merge(Merge(a, b), b) == Merge(a, b)
  {
  }

  /** Colours are on exactly when reading the property gives the value `true`. */
  function ColorsOn(c: LogConfig): (b: bool)
    ensures b <==> c.useColors.Read() == Some(true)
  {
    c.useColors == Present(true)
  }

  /** The console line carries a timestamp only when reading the mode gives "all". */
  function StampConsole(c: LogConfig): (b: bool)
    ensures b <==> c.timestamps.Read() == Some(All)
  {
    c.timestamps == Present(All)
  }

  /** The file line gets its own timestamp only when reading the mode gives "log-only", so never when
      the console line already has one. */
  function StampFile(c: LogConfig): (b: bool)
    ensures b <==> c.timestamps.Read() == Some(LogOnly)
    ensures b ==> !StampConsole(c)
  {
    c.timestamps == Present(LogOnly)
  }

  /** The directory written to: a truthy, that is non-empty, string. */
  function FileDir(c: LogConfig): (r: Option<string>)
    ensures r.Some? <==> c.logFilePath.Present? && c.logFilePath.value != ""
    ensures r.Some? ==> r.value == c.logFilePath.value
  {
    if c.logFilePath.Present? && c.logFilePath.value != "" then Some(c.logFilePath.value) else None
  }

  /** The custom colour configured for a level, looked up under its lower-case member name; missing
      when there is no custom colours object or it has no string under that key. */
  function CustomColor(c: LogConfig, level: LogLevel): (r: Option<string>)
    ensures r.Some? <==> c.customColors.Present? && Key(level) in c.customColors.value
    ensures r.Some? ==> r.value == c.customColors.value[Key(level)]
  {
    match c.customColors.Read()
    case None => None
    case Some(colors) => if Key(level) in colors then Some(colors[Key(level)]) else None
  }
}
