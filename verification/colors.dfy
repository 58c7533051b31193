/** The colour-name table, per-level colour resolution and ANSI colour wrapping. */
module Colors {
  import opened Optional
  import opened Text
  import opened Levels

  /** The nine colour names a custom colour may use, and their ANSI foreground codes. */
  const ColorNameToAnsi: map<string, string> := map[
    "black" := "30",
    "red" := "31",
    "green" := "32",
    "yellow" := "33",
    "blue" := "34",
    "magenta" := "35",
    "cyan" := "36",
    "white" := "37",
    "gray" := "90"
  ]

  /** A non-empty run of decimal digits, the shape of every code the logger emits. */
  predicate IsAnsiCode(code: string) {
    |code| > 0 && forall i :: 0 <= i < |code| ==> '0' <= code[i] <= '9'
  }

  /** The table's keys are exactly the nine colour names. */
  lemma ColorTableKeys()
    ensures ColorNameToAnsi.Keys
         == {"black", "red", "green", "yellow", "blue", "magenta", "cyan", "white", "gray"}
  {
  }

  /** The table has nine entries. */
  lemma ColorTableSize()
    ensures |ColorNameToAnsi| == 9
  {
  }

  /** Every code in the table is made of digits. */
  lemma ColorTableCodes()
    ensures forall n :: n in ColorNameToAnsi ==> IsAnsiCode(ColorNameToAnsi[n])
  {
  }

  /** The code a level is shown in when no valid custom colour is configured: white for Info,
      yellow for Warn and red for Error. */
  function DefaultColor(l: LogLevel): (code: string)
    ensures l == Info ==> code == ColorNameToAnsi["white"]
    ensures l == Warn ==> code == ColorNameToAnsi["yellow"]
    ensures l == Error ==> code == ColorNameToAnsi["red"]
  {
    match l
    case Info => "37"
    case Warn => "33"
    case Error => "31"
  }

  /** The colour of a level: the table's code for the custom colour when that value is a string
      naming one of the nine table entries, and the level's default code otherwise. */
  function ResolveColor(custom: Option<string>, level: LogLevel): (code: string)
    ensures custom.Some? && custom.value in ColorNameToAnsi ==> code == ColorNameToAnsi[custom.value]
    ensures !(custom.Some? && custom.value in ColorNameToAnsi) ==> code == DefaultColor(level)
    ensures IsAnsiCode(code)
  {
    ColorTableCodes();
    if custom.Some? && custom.value in ColorNameToAnsi then ColorNameToAnsi[custom.value]
    else DefaultColor(level)
  }

  /** Resolution without reference to its own branches: a name outside the table counts as no name,
      a table name means the same code at every level, and naming a level's default colour changes
      nothing. */
  lemma {:induction false} ResolveColorLaws(name: string, a: LogLevel, b: LogLevel)
    ensures name !in ColorNameToAnsi ==> ResolveColor(Some(name), a) == ResolveColor(None, a)
    ensures name in ColorNameToAnsi ==> ResolveColor(Some(name), a) == ResolveColor(Some(name), b)
    ensures ResolveColor(Some("white"), Info) == ResolveColor(None, Info)
    ensures ResolveColor(Some("yellow"), Warn) == ResolveColor(None, Warn)
    ensures ResolveColor(Some("red"), Error) == ResolveColor(None, Error)
  {
    assert "white" in ColorNameToAnsi && "yellow" in ColorNameToAnsi && "red" in ColorNameToAnsi;
  }

  /** The control sequence that resets the terminal's colour. */
  const Reset: string := [Esc] + "[0m"

  /** Wraps `message` in the escape sequence for `code` and the reset sequence when colours are on. */
  function Colorize(useColors: bool, code: string, message: string): (r: string)
    ensures !useColors ==> r == message
    ensures useColors ==> |r| == |message| + |code| + 7
    ensures useColors ==> r[..2] == [Esc, '['] && r[2..|code| + 2] == code && r[|code| + 2] == 'm'
    ensures useColors ==> OccursAt(r, message, |code| + 3) && EndsWith(r, Reset)
  {
    if useColors then [Esc] + "[" + code + "m" + message + Reset else message
  }

  /** Splits a possibly coloured line into its colour code and the text it wraps; a line that is not
      wrapped in a colour sequence is returned whole. This inverts `Colorize`. */
  function Decolor(s: string): (Option<string>, string) {
    if 2 <= |s| && s[0] == Esc && s[1] == '[' then
      match IndexOf(s[2..], 'm')
      case None => (None, s)
      case Some(j) =>
        var body := s[3 + j..];
        if EndsWith(body, Reset) then (Some(s[2..2 + j]), body[..|body| - |Reset|]) else (None, s)
    else (None, s)
  }

  /** A digit code contains no `m`, the letter that ends the colour sequence. */
  lemma CodeHasNoM(code: string)
    requires IsAnsiCode(code)
    ensures 'm' !in code
  {
    forall i | 0 <= i < |code| ensures code[i] != 'm' {
      assert '0' <= code[i] <= '9';
    }
  }

  /** The text after the colour sequence's opening `ESC[`. */
  lemma ColorizedTail(code: string, message: string)
    ensures var s := Colorize(true, code, message);
            && s[0] == Esc && s[1] == '['
            && s[2..] == code + ['m'] + (message + Reset)
            && s[2..2 + |code|] == code
            && s[3 + |code|..] == message + Reset
  {
    var s := Colorize(true, code, message);
    assert s == [Esc, '['] + code + ['m'] + (message + Reset);
  }

  /** Colouring loses nothing: the code (when colours are on) and the text are recovered, provided the
      code is made of digits and the text does not itself start with an escape character. */
  lemma DecolorColorize(useColors: bool, code: string, message: string)
    requires IsAnsiCode(code)
    requires |message| == 0 || message[0] != Esc
    ensures Decolor(Colorize(useColors, code, message))
         == (if useColors then Some(code) else None, message)
  {
    if useColors {
      var s := Colorize(useColors, code, message);
      var tail := message + Reset;
      CodeHasNoM(code);
      ColorizedTail(code, message);
      IndexOfAfterPrefix(code, 'm', tail);
      var j := |code|;
      assert IndexOf(s[2..], 'm') == Some(j);
      var body := s[3 + j..];
      assert EndsWith(body, Reset) by {
        assert tail[|tail| - |Reset|..] == Reset;
      }
      assert Decolor(s) == (Some(s[2..2 + j]), body[..|body| - |Reset|]);
      assert body[..|body| - |Reset|] == message;
    }
  }
}
