/** How a log call turns its message into the console line, the file line and the file path. */
module Format {
  import opened Text
  import opened Levels
  import opened Config

  /** The message argument: a string, or any other value `v`, which the logger serialises. */
  datatype Message<V> = Str(s: string) | Value(v: V)

  /** The message as text: a string is used as is, any other value goes through the serialiser
      `ser` (the source's `JSON.stringify`, rendered into a template string). */
  function Serialize<V>(m: Message<V>, ser: V -> string): (r: string)
    ensures m.Str? ==> r == m.s
    ensures m.Value? ==> r == ser(m.v)
  {
    match m
    case Str(s) => s
    case Value(v) => ser(v)
  }

  /** A bracketed field followed by a space, as in `[INFO] ` or `[2024-01-01T00:00:00.000Z] `. */
  function Tag(s: string): (r: string)
    ensures |r| == |s| + 3 && r[0] == '[' && r[1..|s| + 1] == s && r[|s| + 1..] == "] "
  {
    "[" + s + "] "
  }

  /** The line the console shows before colouring, also the text handed to the file writer:
      the level's label tag and the serialised message, behind the call's timestamp tag in "all" mode. */
  function FullMessage(c: LogConfig, level: LogLevel, text: string, ts: string): (r: string)
    ensures |r| == |Label(level)| + 3 + |text| + (if StampConsole(c) then |ts| + 3 else 0)
    ensures r[0] == '['
    ensures EndsWith(r, Tag(Label(level)) + text)
    ensures StampConsole(c) ==> r[..|ts| + 3] == Tag(ts)
  {
    var line := Tag(Label(level)) + text;
    if StampConsole(c) then Tag(ts) + line else line
  }

  /** The directory with one trailing slash removed, if it has one. */
  function StripTrailingSlash(p: string): (r: string)
    ensures r <= p
    ensures EndsWith(p, "/") ==> r + "/" == p
    ensures !EndsWith(p, "/") ==> r == p
  {
    if EndsWith(p, "/") then p[..|p| - 1] else p
  }

  /** The file every line is appended to, `log.log` inside the configured directory. */
  function FilePath(dir: string): (r: string)
    ensures |r| == |dir| + 8 && r[..|dir|] == dir && r[|dir|..] == "/log.log"
  {
    dir + "/log.log"
  }

  /** The text appended to the file for one line: its own timestamp tag in "log-only" mode, then the
      line, then a newline. */
  function FileLine(c: LogConfig, line: string, ts: string): (r: string)
    ensures |r| == |line| + 1 + (if StampFile(c) then |ts| + 3 else 0)
    ensures EndsWith(r, line + "\n")
    ensures StampFile(c) ==> r[..|ts| + 3] == Tag(ts)
  {
    (if StampFile(c) then Tag(ts) + line else line) + "\n"
  }

  /** The file line contains the message text and ends with a newline, whatever the timestamp mode. */
  lemma {:induction false} FileLineContains(c: LogConfig, level: LogLevel, text: string, ts: string)
    ensures var content := FileLine(c, FullMessage(c, level, text, ts), ts);
            Contains(content, text) && EndsWith(content, "\n")
  {
    var full := FullMessage(c, level, text, ts);
    var content := FileLine(c, full, ts);
    var i := |content| - 1 - |text|;
    assert content[i..] == text + "\n";
    assert content[i..i + |text|] == text;
    assert OccursAt(content, text, i);
  }
}
