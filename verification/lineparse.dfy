/** Reading a logged line back: an optional timestamp tag, the level's label tag, and the message.
    The logger itself never parses; these functions are the inverse the formatting lemmas are
    stated against. */
module LineParse {
  import opened Optional
  import opened Text
  import opened Levels
  import opened Config
  import opened Format

  /** What one line says: when (if stamped), at which level, and what. */
  datatype Entry = Entry(timestamp: Option<string>, level: LogLevel, text: string)

  /** A timestamp that cannot be mistaken for a label and has no closing bracket in it, as is the
      case for every ISO 8601 instant. */
  predicate WellFormedTimestamp(ts: string) {
    ']' !in ts && ts != "INFO" && ts != "WARN" && ts != "ERROR"
  }

  /** The level whose label tag starts the line, and the text after it. */
  function SplitLabel(line: string): Option<(LogLevel, string)> {
    if Tag(Label(Info)) <= line then Some((Info, line[|Tag(Label(Info))|..]))
    else if Tag(Label(Warn)) <= line then Some((Warn, line[|Tag(Label(Warn))|..]))
    else if Tag(Label(Error)) <= line then Some((Error, line[|Tag(Label(Error))|..]))
    else None
  }

  /** A console line without colour: a label tag first, or a timestamp tag and then a label tag. */
  function ParseLine(line: string): Option<Entry> {
    match SplitLabel(line)
    case Some((level, text)) => Some(Entry(None, level, text))
    case None =>
      if |line| > 0 && line[0] == '[' then
        match IndexOf(line[1..], ']')
        case None => None
        case Some(j) =>
          var after := line[j + 2..];
          if |after| > 0 && after[0] == ' ' then
            match SplitLabel(after[1..])
            case Some((level, text)) => Some(Entry(Some(line[1..j + 1]), level, text))
            case None => None
          else None
      else None
  }

  /** A file line: a console-shaped line ended by a newline. */
  function ParseFileLine(content: string): Option<Entry> {
    if |content| > 0 && content[|content| - 1] == '\n' then ParseLine(content[..|content| - 1])
    else None
  }

  /** A level's label tag is found again, whatever follows it. */
  lemma SplitLabelTag(level: LogLevel, text: string)
    ensures SplitLabel(Tag(Label(level)) + text) == Some((level, text))
  {
    var line := Tag(Label(level)) + text;
    assert line[1] == Label(level)[0];
    match level
    case Info =>
    case Warn =>
      assert !(Tag(Label(Info)) <= line) by { assert Tag(Label(Info))[1] != line[1]; }
    case Error =>
      assert !(Tag(Label(Info)) <= line) by { assert Tag(Label(Info))[1] != line[1]; }
      assert !(Tag(Label(Warn)) <= line) by { assert Tag(Label(Warn))[1] != line[1]; }
  }

  /** A line that starts with a timestamp tag starts with a label tag only if the timestamp is
      that label. */
  lemma StampIsNotLabel(ts: string, rest: string, name: string)
    requires ']' !in ts && ']' !in name
    requires Tag(name) <= Tag(ts) + rest
    ensures ts == name
  {
    var line := Tag(ts) + rest;
    var t := Tag(name);
    assert line[|ts| + 1] == ']';
    assert t[|name| + 1] == ']';
    if |ts| == |name| {
      assert ts == line[1..|ts| + 1] == t[1..|name| + 1] == name;
    }
  }

  /** A timestamped line starts with no label tag. */
  lemma SplitLabelStamped(ts: string, rest: string)
    requires WellFormedTimestamp(ts)
    ensures SplitLabel(Tag(ts) + rest) == None
  {
    forall level: LogLevel ensures !(Tag(Label(level)) <= Tag(ts) + rest) {
      LabelFacts(level, level);
      if Tag(Label(level)) <= Tag(ts) + rest {
        StampIsNotLabel(ts, rest, Label(level));
      }
    }
  }

  /** A line with a label tag reads back as its level and text, without timestamp. */
  lemma {:induction false} ParseLabelled(level: LogLevel, text: string)
    ensures ParseLine(Tag(Label(level)) + text) == Some(Entry(None, level, text))
  {
    SplitLabelTag(level, text);
  }

  /** A line with no label tag that opens with a bracketed field of length `j` and a space is read as
      that field and whatever the rest of the line says. */
  lemma ParseBracketed(line: string, j: nat)
    requires SplitLabel(line) == None
    requires |line| >= j + 3 && line[0] == '[' && line[j + 2] == ' '
    requires IndexOf(line[1..], ']') == Some(j)
    ensures ParseLine(line)
         == match SplitLabel(line[j + 3..])
            case Some((level, text)) => Some(Entry(Some(line[1..j + 1]), level, text))
            case None => None
  {
    var after := line[j + 2..];
    assert after[0] == ' ' && after[1..] == line[j + 3..];
  }

  /** A timestamp tag is a bracketed field: its closing bracket is the first one, a space follows,
      and the rest of the line comes after that. */
  lemma StampedShape(ts: string, rest: string)
    requires ']' !in ts
    ensures var line := Tag(ts) + rest;
            && |line| >= |ts| + 3 && line[0] == '[' && line[|ts| + 2] == ' '
            && IndexOf(line[1..], ']') == Some(|ts|)
            && line[1..|ts| + 1] == ts && line[|ts| + 3..] == rest
  {
    var line := Tag(ts) + rest;
    assert line[1..] == ts + [']'] + (" " + rest);
    IndexOfAfterPrefix(ts, ']', " " + rest);
    assert line[|ts| + 3..] == rest;
    assert line[1..|ts| + 1] == ts;
  }

  /** After a timestamp tag, the rest of the line is read as a label tag and text. */
  lemma {:induction false} ParseAfterStamp(ts: string, rest: string)
    requires WellFormedTimestamp(ts)
    ensures ParseLine(Tag(ts) + rest)
         == match SplitLabel(rest)
            case Some((level, text)) => Some(Entry(Some(ts), level, text))
            case None => None
  {
    SplitLabelStamped(ts, rest);
    StampedShape(ts, rest);
    ParseBracketed(Tag(ts) + rest, |ts|);
  }

  /** A line with a timestamp tag and a label tag reads back as all three parts. */
  lemma {:induction false} ParseStamped(ts: string, level: LogLevel, text: string)
    requires WellFormedTimestamp(ts)
    ensures ParseLine(Tag(ts) + Tag(Label(level)) + text) == Some(Entry(Some(ts), level, text))
  {
    assert Tag(ts) + Tag(Label(level)) + text == Tag(ts) + (Tag(Label(level)) + text);
    ParseAfterStamp(ts, Tag(Label(level)) + text);
    SplitLabelTag(level, text);
  }

  /** The uncoloured console line reads back as its level and text, with the timestamp exactly in
      "all" mode. */
  lemma {:induction false} ParseFullMessage(c: LogConfig, level: LogLevel, text: string, ts: string)
    requires WellFormedTimestamp(ts)
    ensures ParseLine(FullMessage(c, level, text, ts))
         == Some(Entry(if StampConsole(c) then Some(ts) else None, level, text))
  {
    if StampConsole(c) {
      assert FullMessage(c, level, text, ts) == Tag(ts) + Tag(Label(level)) + text;
      ParseStamped(ts, level, text);
    } else {
      ParseLabelled(level, text);
    }
  }

  /** The file line reads back with one timestamp in "log-only" and "all" modes and none otherwise:
      the file writer adds its timestamp only when the console line has none. */
  lemma {:induction false} ParseFileLineOf(c: LogConfig, level: LogLevel, text: string, ts: string)
    requires WellFormedTimestamp(ts)
    ensures ParseFileLine(FileLine(c, FullMessage(c, level, text, ts), ts))
         == Some(Entry(if StampConsole(c) || StampFile(c) then Some(ts) else None, level, text))
  {
    var full := FullMessage(c, level, text, ts);
    var content := FileLine(c, full, ts);
    assert content[..|content| - 1] == if StampFile(c) then Tag(ts) + full else full;
    if StampFile(c) {
      assert !StampConsole(c);
      assert Tag(ts) + full == Tag(ts) + Tag(Label(level)) + text;
      ParseStamped(ts, level, text);
    } else {
      ParseFullMessage(c, level, text, ts);
    }
  }
}
