/**
 * The colour table and the two formatters of logger_tool.py. Both render
 * the shared template
 *   `<asctime> <levelname padded to 10>: <filename> > <funcName> >>> <message>`;
 * the console formatter first strips the last three characters of the
 * record's filename (in place, on the record) and wraps the line in the
 * colour of the record's rank and a reset code; the file formatter renders
 * the record as it is, without colour.
 */
module Formatters {
  import opened Wrappers
  import opened Levels

  const ESC: char := '\U{1B}'

  /** A colour escape `ESC [ <digits> m`. */
  function Sgr(digits: string): string
  {
    [ESC, '['] + digits + "m"
  }

  const DARK_RED := Sgr("31")
  const BRIGHT_RED := Sgr("91")
  const ORANGE := Sgr("33")
  const GOLD := Sgr("93")
  const YELLOW := Sgr("93")
  const GREEN := Sgr("92")
  const DARKGREEN := Sgr("32")
  const LIGHTGREEN := Sgr("92")
  const LIGHTBLUE := Sgr("94")
  const BLUE := Sgr("94")
  const INDIGO := Sgr("34")
  const VIOLET := Sgr("35")
  const RESET := Sgr("0")
  const WHITE := Sgr("37")
  const BLACK := Sgr("30")

  predicate IsDigit(c: char)
  {
    '0' <= c <= '9'
  }

  /** `c` is one colour escape: ESC, `[`, decimal digits, `m`. */
  predicate IsColorCode(c: string)
  {
    && |c| >= 3 && c[0] == ESC && c[1] == '[' && c[|c| - 1] == 'm'
    && forall i :: 2 <= i < |c| - 1 ==> IsDigit(c[i])
  }

  /**
   * `ColoredFormatter.COLORS`: the colour of each rank. The table has an
   * entry for exactly the ranks that have a display name, and every entry
   * is a single colour escape.
   */
  function ColorOf(rank: int): (c: Option<string>)
    ensures c.Some? <==> RankName(rank).Some?
    ensures c.Some? ==> IsColorCode(c.value)
  {
    match rank
    case 50 => Some(DARK_RED)
    case 40 => Some(BRIGHT_RED)
    case 30 => Some(ORANGE)
    case 24 => Some(GOLD)
    case 23 => Some(WHITE)
    case 22 => Some(ORANGE)
    case 21 => Some(YELLOW)
    case 20 => Some(DARKGREEN)
    case 10 => Some(LIGHTBLUE)
    case 9 => Some(LIGHTBLUE)
    case 8 => Some(BLUE)
    case 7 => Some(INDIGO)
    case 5 => Some(VIOLET)
    case 1 => Some(BLACK)
    case _ => None
  }

  /**
   * Python's `filename[:-3]`: everything but the last three characters,
   * and the empty string for a name of fewer than three.
   */
  function StripExtension(filename: string): (stem: string)
    ensures |stem| == if |filename| >= 3 then |filename| - 3 else 0
    ensures |filename| >= 3 ==> filename == stem + filename[|filename| - 3..]
  {
    if |filename| >= 3 then filename[..|filename| - 3] else ""
  }

  /** `%-10s`: left-aligned, padded with spaces to `width`, never cut. */
  function PadRight(s: string, width: nat): (r: string)
    ensures |r| == if |s| < width then width else |s|
    ensures r[..|s|] == s
    ensures forall i :: |s| <= i < |r| ==> r[i] == ' '
  {
    if |s| < width then s + seq(width - |s|, _ => ' ') else s
  }

  /** The fields of a log record that the template reads. */
  datatype RecordView = RecordView(
    levelno: int,
    levelname: string,
    asctime: string,
    filename: string,
    funcName: string,
    message: string)

  /** The shared template, `LOG_FORMAT`, filled in from a record. */
  function Line(v: RecordView): string
  {
    v.asctime + " " + PadRight(v.levelname, 10) + ": " + v.filename + " > " + v.funcName + " >>> " + v.message
  }

  /**
   * The line starts with the time and a space, the level name follows,
   * left-aligned in a field of at least ten characters, and the rest of the
   * line is `: <filename> > <funcName> >>> <message>`.
   */
  lemma LineShape(v: RecordView)
    ensures var line := Line(v);
      && |line| >= |v.asctime| + 1 + 10
      && line[..|v.asctime| + 1] == v.asctime + " "
      && |line| >= |v.asctime| + 1 + |v.levelname|
      && line[|v.asctime| + 1..|v.asctime| + 1 + |v.levelname|] == v.levelname
      && |line| >= |v.message| + 5 && line[|line| - |v.message| - 5..] == " >>> " + v.message
      && |line| >= |v.asctime| + 1 + |PadRight(v.levelname, 10)|
      && line[|v.asctime| + 1 + |PadRight(v.levelname, 10)|..] == ": " + v.filename + " > " + v.funcName + " >>> " + v.message
  {
    var head := v.asctime + " ";
    var field := PadRight(v.levelname, 10);
    var tail := " >>> " + v.message;
    var line := head + field + (": " + v.filename + " > " + v.funcName) + tail;
    assert Line(v) == line;
    assert line[..|head|] == head;
    assert line[|head|..|head| + |field|] == field;
    assert line[|head|..|head| + |v.levelname|] == field[..|v.levelname|];
    assert line[|line| - |tail|..] == tail;
    assert line[|head| + |field|..] == (": " + v.filename + " > " + v.funcName) + tail;
  }

  /** No field of the record holds an escape character. */
  predicate PlainFields(v: RecordView)
  {
    ESC !in v.levelname + v.asctime + v.filename + v.funcName + v.message
  }

  /**
   * `FileFormatter.format`: the `LOG_FORMAT` template without colour, over
   * the record as it is. For a record whose fields hold no escape character the line holds
   * none either, so removing colour leaves it unchanged; it ends with the
   * record's message.
   */
  function FileText(v: RecordView): (line: string)
    ensures line == Line(v)
    ensures PlainFields(v) ==> ESC !in line && StripAnsi(line) == line
    ensures |line| >= |v.message| && line[|line| - |v.message|..] == v.message
  {
    var line := Line(v);
    assert PlainFields(v) ==> StripAnsi(line) == line by {
      if PlainFields(v) {
        StripPlainPrefix(line, []);
        assert line + [] == line;
      }
    }
    line
  }

  /** The record as the console formatter leaves it: filename stripped. */
  function AfterConsole(v: RecordView): (w: RecordView)
    ensures w.filename == StripExtension(v.filename)
    ensures w.(filename := v.filename) == v
  {
    v.(filename := StripExtension(v.filename))
  }

  datatype FormatError = NoColorForLevel(levelno: int)

  /**
   * What `ColoredFormatter.format` returns for a record: the colour of its
   * rank, the template over the record with its filename stripped, and the
   * reset code. A rank outside the colour table has no colour, and the
   * concatenation fails; that is exactly a rank without a display name.
   */
  function ConsoleText(v: RecordView): (r: Result<string, FormatError>)
    ensures r.Err? <==> RankName(v.levelno).None?
    ensures r.Err? ==> r.error == NoColorForLevel(v.levelno)
    ensures r.Ok? ==> r.value == ColorOf(v.levelno).value + FileText(AfterConsole(v)) + RESET
  {
    match ColorOf(v.levelno)
    case None => Err(NoColorForLevel(v.levelno))
    case Some(color) => Ok(color + Line(AfterConsole(v)) + RESET)
  }

  /** A log record; the console formatter rewrites its filename in place. */
  class LogRecord {
    const levelno: int
    const levelname: string
    const asctime: string
    const funcName: string
    const message: string
    var filename: string

    constructor (levelno: int, levelname: string, asctime: string, filename: string, funcName: string, message: string)
      ensures View() == RecordView(levelno, levelname, asctime, filename, funcName, message)
    {
      this.levelno := levelno;
      this.levelname := levelname;
      this.asctime := asctime;
      this.filename := filename;
      this.funcName := funcName;
      this.message := message;
    }

    function View(): RecordView
      reads this
    {
      RecordView(levelno, levelname, asctime, filename, funcName, message)
    }
  }

  /**
   * `ColoredFormatter.format`. The filename is stripped before the colour is
   * looked up, so a record whose rank has no colour is left stripped even
   * though formatting fails.
   */
  method ColoredFormat(rec: LogRecord) returns (out: Result<string, FormatError>)
    modifies rec
    ensures rec.View() == AfterConsole(old(rec.View()))
    ensures out == ConsoleText(old(rec.View()))
  {
    rec.filename := StripExtension(rec.filename);
    var color := ColorOf(rec.levelno);
    if color.None? {
      return Err(NoColorForLevel(rec.levelno));
    }
    out := Ok(color.value + Line(rec.View()) + RESET);
  }

  // ----- Removing colour from rendered text -----

  /** The number of leading decimal digits of `s`. */
  function DigitRun(s: string): nat
  {
    if |s| > 0 && IsDigit(s[0]) then 1 + DigitRun(s[1..]) else 0
  }

  /** The length of the colour escape that starts `s`, 0 if none does. */
  function EscapeLength(s: string): nat
  {
    if |s| >= 2 && s[0] == ESC && s[1] == '[' then
      var k := DigitRun(s[2..]);
      if 2 + k < |s| && s[2 + k] == 'm' then 3 + k else 0
    else 0
  }

  /** The text with every colour escape removed. */
  function StripAnsi(s: string): string
    decreases |s|
  {
    if s == [] then []
    else
      var n := EscapeLength(s);
      if n > 0 then StripAnsi(s[n..]) else [s[0]] + StripAnsi(s[1..])
  }

  lemma {:induction false} DigitRunOfDigits(ds: string, rest: string)
    requires forall i :: 0 <= i < |ds| ==> IsDigit(ds[i])
    requires rest != [] && !IsDigit(rest[0])
    ensures DigitRun(ds + rest) == |ds|
  {
    if ds != [] {
      assert (ds + rest)[1..] == ds[1..] + rest;
      DigitRunOfDigits(ds[1..], rest);
    } else {
      assert ds + rest == rest;
    }
  }

  /** A colour escape at the front of a text is removed whole. */
  lemma StripLeadingCode(c: string, rest: string)
    requires IsColorCode(c)
    ensures StripAnsi(c + rest) == StripAnsi(rest)
  {
    var s := c + rest;
    var ds := c[2..|c| - 1];
    assert s[2..] == ds + (['m'] + rest);
    DigitRunOfDigits(ds, ['m'] + rest);
    assert EscapeLength(s) == |c|;
    assert s[|c|..] == rest;
  }

  /** Text without escape characters passes through unchanged, whatever follows. */
  lemma {:induction false} StripPlainPrefix(a: string, rest: string)
    requires ESC !in a
    ensures StripAnsi(a + rest) == a + StripAnsi(rest)
  {
    if a != [] {
      var s := a + rest;
      assert s[0] == a[0] && a[0] in a;
      assert EscapeLength(s) == 0;
      assert s[1..] == a[1..] + rest;
      assert ESC !in a[1..] by {
        forall x | x in a[1..] ensures x in a { }
      }
      StripPlainPrefix(a[1..], rest);
      assert [a[0]] + a[1..] == a;
    } else {
      assert a + rest == rest;
    }
  }

  /**
   * Console and file output agree once colour is removed: the console line
   * with its colour escapes removed is exactly what the file formatter
   * renders from the record the console formatter has just stripped. This
   * is the case for the handlers `get_logger` installs, where the console
   * handler formats each record before the file handler does.
   */
  lemma ConsoleMatchesFile(v: RecordView)
    requires PlainFields(v)
    requires ConsoleText(v).Ok?
    ensures StripAnsi(ConsoleText(v).value) == FileText(AfterConsole(v))
  {
    AfterConsoleKeepsPlain(v);
    StripColoredLine(ColorOf(v.levelno).value, FileText(AfterConsole(v)));
  }

  /** Stripping the filename cannot introduce an escape character. */
  lemma AfterConsoleKeepsPlain(v: RecordView)
    requires PlainFields(v)
    ensures PlainFields(AfterConsole(v))
  {
    var w := AfterConsole(v);
    assert w.filename <= v.filename;
    assert ESC !in w.filename by {
      forall x | x in w.filename ensures x in v.filename { }
    }
  }

  /** Removing colour from a coloured line without escapes gives back the line. */
  lemma StripColoredLine(c: string, line: string)
    requires IsColorCode(c) && ESC !in line
    ensures StripAnsi(c + line + RESET) == line
  {
    assert c + line + RESET == c + (line + RESET);
    StripLeadingCode(c, line + RESET);
    StripPlainPrefix(line, RESET);
    StripLeadingCode(RESET, []);
    assert RESET + [] == RESET;
  }
}
