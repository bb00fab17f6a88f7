/**
 * Rendering of one log event into a line: the severity names, the plain and
 * the colour layouts, the choice between them and JSON, and truncation.
 *
 * The clock and JSON serialisation are inputs here: `date` is the ISO-8601
 * timestamp the event was given, `attachments` are the optional parameters
 * already serialised one by one, and `jsonText` is the serialised JSON
 * object of the event.
 */
module Format {
  import opened Config
  import opened Ansi

  /** The display names of DEBUG .. CRITICAL, in level order. */
  const SeverityNames: seq<string> := ["debug", "info", "warning", "error", "critical"]

  /** The name of a level; a value outside DEBUG..CRITICAL is shown as "info". */
  function ToSeverity(level: int): (name: string)
    ensures name in SeverityNames
    ensures LevelDebug <= level <= LevelCritical ==> name == SeverityNames[level - LevelDebug]
    ensures !(LevelDebug <= level <= LevelCritical) ==> name == "info"
  {
    if level == LevelDebug then "debug"
    else if level == LevelInfo then "info"
    else if level == LevelWarning then "warning"
    else if level == LevelError then "error"
    else if level == LevelCritical then "critical"
    else "info"
  }

  /** The five levels have five different names, so a name identifies its level. */
  lemma SeverityNamesDistinct(l1: int, l2: int)
    requires LevelDebug <= l1 <= LevelCritical && LevelDebug <= l2 <= LevelCritical
    requires ToSeverity(l1) == ToSeverity(l2)
    ensures l1 == l2
  {
  }

  /**
   * With a positive maximum, a line longer than the maximum keeps its first
   * `maxEventLength` characters followed by "..."; any other line is unchanged.
   */
  function Truncate(msg: string, maxEventLength: int): (r: string)
    ensures maxEventLength > 0 && |msg| > maxEventLength ==>
      |r| == maxEventLength + 3 && r[..maxEventLength] == msg[..maxEventLength] && r[maxEventLength..] == "..."
    ensures !(maxEventLength > 0 && |msg| > maxEventLength) ==> r == msg
    ensures maxEventLength > 0 ==> |r| <= maxEventLength + 3
  {
    if maxEventLength > 0 && |msg| > maxEventLength then msg[..maxEventLength] + "..." else msg
  }

  /** Truncating a truncated line changes nothing. */
  lemma TruncateIdempotent(msg: string, maxEventLength: int)
    ensures Truncate(Truncate(msg, maxEventLength), maxEventLength) == Truncate(msg, maxEventLength)
  {
  }

  // Terminal colours
  const Reset: string := "\U{1B}[0m"
  const FgRed: string := "\U{1B}[31m"
  const FgGreen: string := "\U{1B}[32m"
  const FgOrange: string := "\U{1B}[33m"
  const FgYellow: string := "\U{1B}[38;5;226m"
  const FgCyan: string := "\U{1B}[36m"
  const FgWhite: string := "\U{1B}[37m"

  // ---------------------------------------------------------------- plain layout

  /** The attachments as the plain line shows them: " <a1>  <a2> ... ". */
  function Spaced(attachments: seq<string>): string
  {
    if attachments == [] then "" else " " + attachments[0] + " " + Spaced(attachments[1..])
  }

  /**
   * The attachment loop of the plain layout, each attachment appended to the
   * accumulator as " <a> ": it appends exactly the spaced attachments.
   */
  function AppendEach(e: string, attachments: seq<string>): (r: string)
    ensures r == e + Spaced(attachments)
    decreases |attachments|
  {
    if attachments == [] then e
    else
      var a := attachments[0];
      assert e + " " + a + " " + Spaced(attachments[1..]) == e + (" " + a + " " + Spaced(attachments[1..]));
      AppendEach(e + " " + a + " ", attachments[1..])
  }

  /** The bracketed attachment block of the plain layout. */
  function PlainAttachments(attachments: seq<string>): (r: string)
    ensures r == "[" + Spaced(attachments) + "]"
  {
    AppendEach("[", attachments) + "]"
  }

  /** The plain line: `<prefix> [<severity>][<date>][<message>][ <a1>  <a2> ]`. */
  function PlainLayout(prefix: string, level: int, message: string, date: string, attachments: seq<string>): (r: string)
    ensures r == prefix + " " + ("[" + ToSeverity(level) + "]") + ("[" + date + "]") + ("[" + message + "]")
                + ("[" + Spaced(attachments) + "]")
  {
    var s := "[" + ToSeverity(level) + "]";
    var d := "[" + date + "]";
    prefix + " " + s + d + "[" + message + "]" + PlainAttachments(attachments)
  }

  // ---------------------------------------------------------------- colour layout

  function ColorSpaced(attachments: seq<string>): string
  {
    if attachments == [] then "" else " " + FgYellow + attachments[0] + " " + ColorSpaced(attachments[1..])
  }

  /**
   * The attachment loop of the colour layout, each attachment appended as
   * " <yellow><a> ": it appends exactly the coloured spaced attachments.
   */
  function ColorEach(e: string, attachments: seq<string>): (r: string)
    ensures r == e + ColorSpaced(attachments)
    decreases |attachments|
  {
    if attachments == [] then e
    else
      var a := attachments[0];
      assert e + " " + FgYellow + a + " " + ColorSpaced(attachments[1..])
          == e + (" " + FgYellow + a + " " + ColorSpaced(attachments[1..]));
      ColorEach(e + " " + FgYellow + a + " ", attachments[1..])
  }

  predicate AllNoEsc(attachments: seq<string>)
  {
    forall i :: 0 <= i < |attachments| ==> NoEsc(attachments[i])
  }

  lemma ColorsAreCodes()
    ensures IsCode(Reset) && IsCode(FgRed) && IsCode(FgGreen) && IsCode(FgOrange)
    ensures IsCode(FgYellow) && IsCode(FgCyan) && IsCode(FgWhite)
  {
  }

  /** Joins two closed pieces: the result is closed and shows both pieces' visible text. */
  lemma Join(a: string, b: string, va: string, vb: string)
    requires Closed(a) && StripAnsi(a) == va
    requires Closed(b) && StripAnsi(b) == vb
    ensures Closed(a + b) && StripAnsi(a + b) == va + vb
  {
    StripAppend(a, b);
  }

  /** A coloured token `<green>[<colour><name><green>]` shows as `[<name>]`. */
  lemma ColoredToken(colour: string, name: string)
    requires IsCode(colour) && NoEsc(name)
    ensures Closed(FgGreen + "[" + colour + name + FgGreen + "]")
    ensures StripAnsi(FgGreen + "[" + colour + name + FgGreen + "]") == "[" + name + "]"
  {
    ColorsAreCodes();
    StripCode(FgGreen); StripText("["); StripCode(colour); StripText(name); StripText("]");
    Join(FgGreen, "[", "", "[");
    Join(FgGreen + "[", colour, "[", "");
    Join(FgGreen + "[" + colour, name, "[", name);
    Join(FgGreen + "[" + colour + name, FgGreen, "[" + name, "");
    Join(FgGreen + "[" + colour + name + FgGreen, "]", "[" + name, "]");
  }

  /** An uncoloured token `<green>[<name>]` shows as `[<name>]`. */
  lemma GreenToken(name: string)
    requires NoEsc(name)
    ensures Closed(FgGreen + "[" + name + "]")
    ensures StripAnsi(FgGreen + "[" + name + "]") == "[" + name + "]"
  {
    ColorsAreCodes();
    StripCode(FgGreen); StripText("["); StripText(name); StripText("]");
    Join(FgGreen, "[", "", "[");
    Join(FgGreen + "[", name, "[", name);
    Join(FgGreen + "[" + name, "]", "[" + name, "]");
  }

  lemma {:induction false} ColorSpacedVisible(attachments: seq<string>)
    requires AllNoEsc(attachments)
    ensures Closed(ColorSpaced(attachments)) && StripAnsi(ColorSpaced(attachments)) == Spaced(attachments)
    decreases |attachments|
  {
    if attachments != [] {
      var a := attachments[0];
      ColorsAreCodes();
      ColorSpacedVisible(attachments[1..]);
      StripText(" "); StripCode(FgYellow); StripText(a);
      Join(" ", FgYellow, " ", "");
      Join(" " + FgYellow, a, " ", a);
      Join(" " + FgYellow + a, " ", " " + a, " ");
      Join(" " + FgYellow + a + " ", ColorSpaced(attachments[1..]), " " + a + " ", Spaced(attachments[1..]));
    }
  }

  /**
   * The bracketed attachment block of the colour layout; with escape codes
   * removed it is the plain block.
   */
  function ColorAttachments(attachments: seq<string>): (r: string)
    ensures r == FgGreen + "[" + ColorSpaced(attachments) + FgGreen + "]"
    ensures AllNoEsc(attachments) ==> Closed(r) && StripAnsi(r) == PlainAttachments(attachments)
  {
    var r := ColorEach(FgGreen + "[", attachments) + FgGreen + "]";
    if AllNoEsc(attachments) then
      ColorsAreCodes();
      ColorSpacedVisible(attachments);
      StripCode(FgGreen); StripText("["); StripText("]");
      Join(FgGreen, "[", "", "[");
      Join(FgGreen + "[", ColorSpaced(attachments), "[", Spaced(attachments));
      Join(FgGreen + "[" + ColorSpaced(attachments), FgGreen, "[" + Spaced(attachments), "");
      Join(FgGreen + "[" + ColorSpaced(attachments) + FgGreen, "]", "[" + Spaced(attachments), "]");
      r
    else
      r
  }

  /** The colour of each severity name: none for INFO and for unknown levels. */
  function SeverityColor(level: int): (c: string)
    ensures c == "" || IsCode(c)
  {
    match level
    case -1 => FgCyan
    case 1 => FgYellow
    case 2 => FgRed
    case 3 => FgRed
    case _ => ""
  }

  /**
   * The severity token: cyan for DEBUG, yellow for WARNING, red for ERROR and
   * CRITICAL, uncoloured otherwise; in every case it shows as `[<severity>]`.
   */
  function ColorSeverity(level: int): (r: string)
    ensures Closed(r) && StripAnsi(r) == "[" + ToSeverity(level) + "]"
    ensures SeverityColor(level) != "" ==>
      r == FgGreen + "[" + SeverityColor(level) + ToSeverity(level) + FgGreen + "]"
    ensures SeverityColor(level) == "" ==> r == FgGreen + "[" + ToSeverity(level) + "]"
  {
    var severity := ToSeverity(level);
    ColorsAreCodes();
    assert NoEsc(severity);
    if level == LevelDebug then
      ColoredToken(FgCyan, severity);
      FgGreen + "[" + FgCyan + severity + FgGreen + "]"
    else if level == LevelInfo then
      GreenToken(severity);
      FgGreen + "[" + severity + "]"
    else if level == LevelWarning then
      ColoredToken(FgYellow, severity);
      FgGreen + "[" + FgYellow + severity + FgGreen + "]"
    else if level == LevelError || level == LevelCritical then
      ColoredToken(FgRed, severity);
      FgGreen + "[" + FgRed + severity + FgGreen + "]"
    else
      GreenToken(severity);
      FgGreen + "[" + severity + "]"
  }

  /**
   * Both layouts join five pieces the same way; if each coloured piece shows
   * as the matching plain piece, the coloured line shows as the plain line.
   */
  lemma LineVisible(appName: string, sev: string, d: string, message: string, e: string,
                    prefix: string, sev': string, d': string, e': string)
    requires Closed(appName) && StripAnsi(appName) == prefix
    requires Closed(sev) && StripAnsi(sev) == sev'
    requires Closed(d) && StripAnsi(d) == d'
    requires Closed(e) && StripAnsi(e) == e'
    requires NoEsc(message)
    ensures Closed(appName + " " + sev + d + "[" + message + "]" + e)
    ensures StripAnsi(appName + " " + sev + d + "[" + message + "]" + e)
         == prefix + " " + sev' + d' + "[" + message + "]" + e'
  {
    StripText(" "); StripText("["); StripText(message); StripText("]");
    Join(appName, " ", prefix, " ");
    Join(appName + " ", sev, prefix + " ", sev');
    Join(appName + " " + sev, d, prefix + " " + sev', d');
    Join(appName + " " + sev + d, "[", prefix + " " + sev' + d', "[");
    Join(appName + " " + sev + d + "[", message, prefix + " " + sev' + d' + "[", message);
    Join(appName + " " + sev + d + "[" + message, "]", prefix + " " + sev' + d' + "[" + message, "]");
    Join(appName + " " + sev + d + "[" + message + "]", e, prefix + " " + sev' + d' + "[" + message + "]", e');
  }

  /**
   * The colour line: reset and white before the prefix, the coloured
   * severity token, the date in orange between green brackets, the message,
   * and the yellow attachments between green brackets. It differs from the
   * plain line only by escape sequences: once they are removed it shows
   * exactly the plain line, provided the prefix, message, date and
   * attachments hold no escape character.
   */
  function ColorLayout(prefix: string, level: int, message: string, date: string, attachments: seq<string>): (r: string)
    ensures r == Reset + FgWhite + prefix + " " + ColorSeverity(level)
                + (FgGreen + "[" + FgOrange + date + FgGreen + "]") + "[" + message + "]"
                + (FgGreen + "[" + ColorSpaced(attachments) + FgGreen + "]")
    ensures NoEsc(prefix) && NoEsc(message) && NoEsc(date) && AllNoEsc(attachments) ==>
      StripAnsi(r) == PlainLayout(prefix, level, message, date, attachments)
  {
    var appName := Reset + FgWhite + prefix;
    var d := FgGreen + "[" + FgOrange + date + FgGreen + "]";
    var r := appName + " " + ColorSeverity(level) + d + "[" + message + "]" + ColorAttachments(attachments);
    if NoEsc(prefix) && NoEsc(message) && NoEsc(date) && AllNoEsc(attachments) then
      ColorsAreCodes();
      StripCode(Reset); StripCode(FgWhite); StripText(prefix);
      Join(Reset, FgWhite, "", "");
      Join(Reset + FgWhite, prefix, "", prefix);
      ColoredToken(FgOrange, date);
      LineVisible(appName, ColorSeverity(level), d, message, ColorAttachments(attachments),
                  prefix, "[" + ToSeverity(level) + "]", "[" + date + "]", PlainAttachments(attachments));
      r
    else
      r
  }

  // ---------------------------------------------------------------- the rendered line

  /**
   * The line for one event: the colour layout when colour is on and JSON
   * mode is off, the JSON text in JSON mode, the plain layout otherwise;
   * then truncated.
   */
  function BuildMessage(cfg: Settings, level: int, message: string, date: string,
                        attachments: seq<string>, jsonText: string): (r: string)
    ensures cfg.jsonMode ==> r == Truncate(jsonText, cfg.maxEventLength)
    ensures !cfg.jsonMode && cfg.useColor ==>
      r == Truncate(ColorLayout(cfg.logPrefix, level, message, date, attachments), cfg.maxEventLength)
    ensures !cfg.jsonMode && !cfg.useColor ==>
      r == Truncate(PlainLayout(cfg.logPrefix, level, message, date, attachments), cfg.maxEventLength)
  {
    var msg :=
      if cfg.useColor && !cfg.jsonMode then ColorLayout(cfg.logPrefix, level, message, date, attachments)
      else if cfg.jsonMode then jsonText
      else PlainLayout(cfg.logPrefix, level, message, date, attachments);
    Truncate(msg, cfg.maxEventLength)
  }

  lemma {:induction false} SpacedNoEsc(attachments: seq<string>)
    requires AllNoEsc(attachments)
    ensures NoEsc(Spaced(attachments))
    decreases |attachments|
  {
    if attachments != [] {
      SpacedNoEsc(attachments[1..]);
    }
  }

  /**
   * Without truncation and outside JSON mode, the text a line shows is the
   * plain layout whether or not colour is on: colour adds only escape codes.
   */
  lemma VisibleLine(cfg: Settings, level: int, message: string, date: string,
                    attachments: seq<string>, jsonText: string)
    requires !cfg.jsonMode && cfg.maxEventLength <= 0
    requires NoEsc(cfg.logPrefix) && NoEsc(message) && NoEsc(date) && AllNoEsc(attachments)
    ensures StripAnsi(BuildMessage(cfg, level, message, date, attachments, jsonText))
         == PlainLayout(cfg.logPrefix, level, message, date, attachments)
  {
    if !cfg.useColor {
      SpacedNoEsc(attachments);
      assert NoEsc(ToSeverity(level));
      StripText(PlainLayout(cfg.logPrefix, level, message, date, attachments));
    }
  }

  /**
   * After `init` the colour flag is always on, so outside JSON mode every
   * line uses the colour layout and the plain layout is never chosen.
   */
  lemma ColorAlwaysChosen(flc: Options, level: int, message: string, date: string,
                          attachments: seq<string>, jsonText: string)
    requires !flc.jsonMode
    ensures BuildMessage(Resolve(flc), level, message, date, attachments, jsonText)
         == Truncate(ColorLayout(flc.logPrefix, level, message, date, attachments), flc.maxEventLength)
  {
  }
}
