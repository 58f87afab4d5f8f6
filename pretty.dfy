/**
 * The console output helpers of the command-line client: `italic`, the status line
 * `format_pretty`/`print_pretty`, and the error report `format_error`/`print_error`.
 * click's `style` and `textwrap.indent` are parameters (`Style`, `Indent`), `str()` of a
 * non-string JSON value is the parameter `repr`, and the output file is an object
 * that records what was written and how much of it was flushed.
 */
module Pretty {
  import opened Common
  import opened Values
  import Strings

  /** The escape character that starts an ANSI control sequence. */
  const Esc: char := '\U{1B}'

  // ---------------------------------------------------------------------------
  // italic
  // ---------------------------------------------------------------------------

  const ItalicOn: string := [Esc] + "[3m"
  const ItalicOff: string := [Esc] + "[23m"

  /** `italic(text)`: the text between the italic-on and italic-off sequences. */
  function Italic(text: string): (r: string)
    ensures |r| == |ItalicOn| + |text| + |ItalicOff|
    ensures r[..|ItalicOn|] == ItalicOn && r[|r| - |ItalicOff|..] == ItalicOff
  {
    ItalicOn + text + ItalicOff
  }

  /** The text an italic span wraps, if `s` is one. */
  function Unitalic(s: string): (r: Option<string>)
    ensures r.Some? ==> Italic(r.value) == s
  {
    if |s| >= |ItalicOn| + |ItalicOff| && s[..|ItalicOn|] == ItalicOn && s[|s| - |ItalicOff|..] == ItalicOff then
      var t := s[|ItalicOn|..|s| - |ItalicOff|];
      assert s == s[..|ItalicOn|] + t + s[|s| - |ItalicOff|..];
      Some(t)
    else None
  }

  /** Every italic span gives back exactly the text it was made from. */
  lemma ItalicRoundTrip(text: string)
    ensures Unitalic(Italic(text)) == Some(text)
  {
  }

  /** Different texts never look alike once italicised. */
  lemma ItalicInjective(a: string, b: string)
    requires Italic(a) == Italic(b)
    ensures a == b
  {
    ItalicRoundTrip(a);
    ItalicRoundTrip(b);
  }

  // ---------------------------------------------------------------------------
  // Status indicators
  // ---------------------------------------------------------------------------

  /** `PrintStatus`, and any other object a caller passes as the status. */
  datatype PrintStatus = StatusNone | Waiting | StatusDone | Failed | Warning | NotAStatus

  /** An indicator glyph and the colour click paints it in. */
  datatype Indicator = Indicator(glyph: char, colour: string)

  /** click's `style(text, fg=colour, reset=...)`, which this model does not interpret. */
  type Style = (string, Option<string>, bool) -> string

  /** `textwrap.indent(text, '  ')`, which this model does not interpret. */
  type Indent = string -> string

  /** The glyph and colour of each status; any other value raises ValueError. */
  function IndicatorOf(status: PrintStatus): (r: Outcome<Indicator>)
    ensures r.Raised? <==> status == NotAStatus
    ensures r.Raised? ==> r.error == ValueError
  {
    match status
    case StatusNone => Done(Indicator('\U{2219}', "bright_cyan"))
    case Waiting => Done(Indicator('\U{22EF}', "bright_yellow"))
    case StatusDone => Done(Indicator('\U{2714}', "bright_green"))
    case Failed => Done(Indicator('\U{2718}', "bright_red"))
    case Warning => Done(Indicator('\U{2219}', "yellow"))
    case NotAStatus => Raised(ValueError)
  }

  /** No two statuses share an indicator: NONE and WARNING share a glyph but not a colour. */
  lemma IndicatorsDistinct(a: PrintStatus, b: PrintStatus)
    requires a != NotAStatus && b != NotAStatus && a != b
    ensures IndicatorOf(a) != IndicatorOf(b)
  {
  }

  function StyledIndicator(ind: Indicator, style: Style): string
  {
    style([ind.glyph], Some(ind.colour), false)
  }

  /** `text[1:]`, which is empty for an empty text. */
  function DropFirst(s: string): (r: string)
    ensures s == [] ==> r == []
    ensures s != [] ==> [s[0]] + r == s
  {
    if s == [] then [] else s[1..]
  }

  /**
   * The styled line of both `format_pretty` and `print_pretty`: the indicator in place
   * of the first character of the two-space-indented message, the whole reset-styled.
   */
  function StatusLine(ind: Indicator, msg: string, style: Style, indent: Indent): string
  {
    style(StyledIndicator(ind, style) + DropFirst(indent(msg)), None, true)
  }

  /** `format_pretty(msg, status)`. */
  function FormatPretty(msg: string, status: PrintStatus, style: Style, indent: Indent): (r: Outcome<string>)
    ensures r.Raised? <==> status == NotAStatus
    ensures r.Done? ==> r.value == StatusLine(IndicatorOf(status).value, msg, style, indent)
  {
    match IndicatorOf(status)
    case Raised(e) => Raised(e)
    case Done(ind) => Done(StatusLine(ind, msg, style, indent))
  }

  /**
   * When the indented message starts with the two-space prefix (its first line is not
   * blank), the indicator takes the place of the first space and one space remains.
   */
  lemma IndicatorReplacesFirstSpace(msg: string, status: PrintStatus, style: Style, indent: Indent, rest: string)
    requires status != NotAStatus && indent(msg) == "  " + rest
    ensures FormatPretty(msg, status, style, indent) ==
      Done(style(StyledIndicator(IndicatorOf(status).value, style) + " " + rest, None, true))
  {
    assert DropFirst("  " + rest) == " " + rest;
    var si := StyledIndicator(IndicatorOf(status).value, style);
    assert si + DropFirst(indent(msg)) == si + " " + rest;
  }

  // ---------------------------------------------------------------------------
  // format_error
  // ---------------------------------------------------------------------------

  /** The exceptions `format_error` reports: an API error, or any other exception. */
  datatype Failure =
    | ApiFailure(className: string, status: int, reason: string, data: seq<(string, Value)>)
    | OtherFailure(className: string, args: seq<Value>, traceback: seq<string>)

  /** What the generator yields before it finishes, and the exception that ended it, if any. */
  datatype Yielded = Yielded(pieces: seq<string>, raised: Option<PyError>)

  /** `str(v)`: a string is itself; any other value is rendered by `repr`. */
  function Text(v: Value, repr: Value -> string): string
  {
    if v.Str? then v.s else repr(v)
  }

  /** `map(str, args)`: the text of each argument, in order. */
  function ArgTexts(args: seq<Value>, repr: Value -> string): (r: seq<string>)
    ensures |r| == |args| && forall i :: 0 <= i < |args| ==> r[i] == Text(args[i], repr)
  {
    seq(|args|, i requires 0 <= i < |args| => Text(args[i], repr))
  }

  /** `d.get(key)` as Python sees it: a JSON null is the same None as a missing key. */
  function GetNotNone(d: seq<(string, Value)>, key: string): (r: Option<Value>)
    ensures r.Some? ==> r.value != Null && Get(d, key) == Some(r.value)
    ensures r.None? ==> Get(d, key).None? || Get(d, key) == Some(Null)
  {
    match Get(d, key)
    case None => None
    case Some(v) => if v == Null then None else Some(v)
  }

  const Arrow: string := "\n\U{279C} "

  /** The agent section, after its two fixed lines; a non-object `agent-details` has no `.get`. */
  function AgentLines(agent: Value, repr: Value -> string): Yielded
  {
    var intro := [Arrow + "This is an agent-side error. ",
                  "Check the agent status or ask the administrator for help."];
    if !agent.Object? then Yielded(intro, Some(AttributeError("get")))
    else
      var excLine := match GetNotNone(agent.entries, "exception")
                     case None => []
                     case Some(x) => [Arrow + Text(x, repr)];
      var titleLine := match GetNotNone(agent.entries, "title")
                       case None => []
                       case Some(t) => [Arrow + Text(t, repr)];
      Yielded(intro + excLine + titleLine, None)
  }

  /** The pieces yielded after more pieces: `prefix`, then what `rest` yielded, ending as `rest` ended. */
  function Then(prefix: seq<string>, rest: Yielded): (r: Yielded)
    ensures |r.pieces| == |prefix| + |rest.pieces| && r.pieces[..|prefix|] == prefix
    ensures r.raised == rest.raised
  {
    Yielded(prefix + rest.pieces, rest.raised)
  }

  /** The details section: only for a truthy `data['data']`. */
  function DetailsPieces(data: seq<(string, Value)>, repr: Value -> string): seq<string>
  {
    match Get(data, "data")
    case Some(d) => if Truthy(d) then [Arrow + "Error details: ", Text(d, repr)] else []
    case None => []
  }

  /** The last, optional piece: a truthy `content`, which `'\n' + content` needs to be a string. */
  function ContentPieces(data: seq<(string, Value)>): Yielded
  {
    match Get(data, "content")
    case Some(c) =>
      if !Truthy(c) then Yielded([], None)
      else if c.Str? then Yielded(["\n" + c.s], None)
      else Yielded([], Some(TypeError))
    case None => Yielded([], None)
  }

  /** Everything an API error report yields after its title. */
  function AfterTitle(data: seq<(string, Value)>, repr: Value -> string): (r: Yielded)
    ensures r.raised.Some? ==> r.raised.value in {AttributeError("get"), TypeError}
  {
    var details := DetailsPieces(data, repr);
    match GetNotNone(data, "agent-details")
    case Some(agent) =>
      var a := AgentLines(agent, repr);
      if a.raised.Some? then Then(details, a) else Then(details + a.pieces, ContentPieces(data))
    case None => Then(details, ContentPieces(data))
  }

  /** The pieces `format_error` yields for an API error; without a title it stops with a KeyError. */
  function ApiErrorPieces(className: string, status: int, reason: string, data: seq<(string, Value)>,
                          repr: Value -> string): (y: Yielded)
    ensures |y.pieces| >= 1
    ensures y.pieces[0] == className + ": " + Strings.IntToString(status) + " " + reason + "\n"
    ensures y.raised == Some(KeyError("title")) <==> Get(data, "title").None?
    ensures Get(data, "title").None? ==> |y.pieces| == 1
    ensures Get(data, "title").Some? ==> |y.pieces| >= 2 && y.pieces[1] == Text(Get(data, "title").value, repr)
  {
    var header := className + ": " + Strings.IntToString(status) + " " + reason + "\n";
    match Get(data, "title")
    case None => Yielded([header], Some(KeyError("title")))
    case Some(title) => Then([header, Text(title, repr)], AfterTitle(data, repr))
  }

  /**
   * The characters below 128 that Python's `str.isspace()` accepts: tab, newline,
   * vertical tab, form feed, carriage return, the four separators 0x1C-0x1F, and space.
   */
  predicate IsSpace(c: char)
  {
    ('\t' <= c <= '\r') || ('\U{1C}' <= c <= '\U{1F}') || c == ' '
  }

  /** `r` is `s[i..j]`, and only whitespace lies outside that slice. */
  predicate TrimmedAt(s: string, r: string, i: int, j: int)
  {
    && 0 <= i <= j <= |s| && r == s[i..j]
    && (forall k :: 0 <= k < i ==> IsSpace(s[k]))
    && (forall k :: j <= k < |s| ==> IsSpace(s[k]))
  }

  /** `s.strip()`: the leading and trailing runs of whitespace are removed, nothing else. */
  function Strip(s: string): (r: string)
    ensures r == [] || (!IsSpace(r[0]) && !IsSpace(r[|r| - 1]))
    ensures exists i, j :: TrimmedAt(s, r, i, j)
    decreases |s|
  {
    if s == [] then
      assert TrimmedAt(s, [], 0, 0);
      []
    else if IsSpace(s[0]) then
      var r := Strip(s[1..]);
      TrimmedFront(s, s[1..], r);
      r
    else if IsSpace(s[|s| - 1]) then
      var r := Strip(s[..|s| - 1]);
      TrimmedBack(s, s[..|s| - 1], r);
      r
    else
      assert TrimmedAt(s, s, 0, |s|);
      s
  }

  /** A whitespace character in front of a trimmed text may be trimmed too. */
  lemma TrimmedFront(s: string, rest: string, r: string)
    requires s != [] && IsSpace(s[0]) && rest == s[1..]
    requires exists i, j :: TrimmedAt(rest, r, i, j)
    ensures exists i, j :: TrimmedAt(s, r, i, j)
  {
    var i, j :| TrimmedAt(rest, r, i, j);
    assert TrimmedAt(s, r, i + 1, j + 1);
  }

  /** A whitespace character behind a trimmed text may be trimmed too. */
  lemma TrimmedBack(s: string, rest: string, r: string)
    requires s != [] && IsSpace(s[|s| - 1]) && rest == s[..|s| - 1]
    requires exists i, j :: TrimmedAt(rest, r, i, j)
    ensures exists i, j :: TrimmedAt(s, r, i, j)
  {
    var i, j :| TrimmedAt(rest, r, i, j);
    assert TrimmedAt(s, r, i, j);
  }

  /** `format_error(exc)`: the generator's pieces, in order, and how it ended. */
  function FormatError(exc: Failure, repr: Value -> string): (y: Yielded)
    ensures y.raised.Some? ==> exc.ApiFailure?
    ensures exc.OtherFailure? ==> |y.pieces| == 3
    ensures exc.ApiFailure? ==> |y.pieces| >= 1
  {
    match exc
    case ApiFailure(className, status, reason, data) => ApiErrorPieces(className, status, reason, data, repr)
    case OtherFailure(className, args, tb) =>
      var shown := if args == [] then [Str("")] else args;
      Yielded([className + ": " + Text(shown[0], repr) + "\n",
               Strings.Join(ArgTexts(shown[1..], repr), "\n"),
               "*** Traceback ***\n" + Strip(Strings.Join(tb, ""))], None)
  }

  // ---------------------------------------------------------------------------
  // What format_error promises
  // ---------------------------------------------------------------------------

  /** An API error report opens with "Class: status reason", then the title; no title is a KeyError. */
  lemma ApiErrorOpens(className: string, status: int, reason: string, data: seq<(string, Value)>,
                      repr: Value -> string)
    ensures var y := FormatError(ApiFailure(className, status, reason, data), repr);
      && |y.pieces| >= 1
      && y.pieces[0] == className + ": " + Strings.IntToString(status) + " " + reason + "\n"
      && (Get(data, "title").None? <==> y.raised == Some(KeyError("title")))
      && (Get(data, "title").None? ==> |y.pieces| == 1)
      && (Get(data, "title").Some? ==> |y.pieces| >= 2 && y.pieces[1] == Text(Get(data, "title").value, repr))
  {
  }

  /** A title alone gives exactly the header and the title. */
  lemma ApiErrorMinimal(className: string, status: int, reason: string, title: string, repr: Value -> string)
    ensures FormatError(ApiFailure(className, status, reason, [("title", Str(title))]), repr) ==
      Yielded([className + ": " + Strings.IntToString(status) + " " + reason + "\n", title], None)
  {
  }

  /**
   * With every optional part present, the report holds the header, the title, the two
   * details pieces, the two agent lines, the agent's exception and title, and the
   * content, in that order, and ends normally.
   */
  lemma ApiErrorFull(className: string, status: int, reason: string, data: seq<(string, Value)>,
                     repr: Value -> string, title: string, details: string, agent: Value,
                     agentExc: string, agentTitle: string, content: string)
    requires details != [] && content != []
    requires Get(data, "title") == Some(Str(title))
    requires Get(data, "data") == Some(Str(details))
    requires GetNotNone(data, "agent-details") == Some(agent) && agent.Object?
    requires GetNotNone(agent.entries, "exception") == Some(Str(agentExc))
    requires GetNotNone(agent.entries, "title") == Some(Str(agentTitle))
    requires Get(data, "content") == Some(Str(content))
    ensures var y := FormatError(ApiFailure(className, status, reason, data), repr);
      && y.raised.None? && |y.pieces| == 9
      && y.pieces[0] == className + ": " + Strings.IntToString(status) + " " + reason + "\n"
      && y.pieces[1] == title
      && y.pieces[2] == Arrow + "Error details: " && y.pieces[3] == details
      && y.pieces[4] == Arrow + "This is an agent-side error. "
      && y.pieces[5] == "Check the agent status or ask the administrator for help."
      && y.pieces[6] == Arrow + agentExc && y.pieces[7] == Arrow + agentTitle
      && y.pieces[8] == "\n" + content
  {
    var header := className + ": " + Strings.IntToString(status) + " " + reason + "\n";
    var lines := [Arrow + "This is an agent-side error. ",
                  "Check the agent status or ask the administrator for help.",
                  Arrow + agentExc, Arrow + agentTitle];
    AgentLinesOf(agent, repr, agentExc, agentTitle);
    AfterTitleOf(data, repr, details, agent, content);
    var rest := [Arrow + "Error details: ", details] + lines + ["\n" + content];
    TitledReport(className, status, reason, data, repr, title, rest);
    FullPieces([header, title] + rest, header, title, details, agentExc, agentTitle, content);
  }

  lemma FullPieces(s: seq<string>, header: string, title: string, details: string, agentExc: string,
                   agentTitle: string, content: string)
    requires s == [header, title] + ([Arrow + "Error details: ", details] +
                                     [Arrow + "This is an agent-side error. ",
                                      "Check the agent status or ask the administrator for help.",
                                      Arrow + agentExc, Arrow + agentTitle] + ["\n" + content])
    ensures |s| == 9 && s[0] == header && s[1] == title
      && s[2] == Arrow + "Error details: " && s[3] == details
      && s[4] == Arrow + "This is an agent-side error. "
      && s[5] == "Check the agent status or ask the administrator for help."
      && s[6] == Arrow + agentExc && s[7] == Arrow + agentTitle
      && s[8] == "\n" + content
  {
  }

  /** A titled report is the header and the title, then whatever follows the title. */
  lemma TitledReport(className: string, status: int, reason: string, data: seq<(string, Value)>,
                     repr: Value -> string, title: string, rest: seq<string>)
    requires Get(data, "title") == Some(Str(title))
    requires AfterTitle(data, repr) == Yielded(rest, None)
    ensures FormatError(ApiFailure(className, status, reason, data), repr) ==
      Yielded([className + ": " + Strings.IntToString(status) + " " + reason + "\n", title] + rest, None)
  {
  }

  /** An agent section with both an exception and a title yields the two fixed lines and those two. */
  lemma AgentLinesOf(agent: Value, repr: Value -> string, agentExc: string, agentTitle: string)
    requires agent.Object?
    requires GetNotNone(agent.entries, "exception") == Some(Str(agentExc))
    requires GetNotNone(agent.entries, "title") == Some(Str(agentTitle))
    ensures AgentLines(agent, repr) ==
      Yielded([Arrow + "This is an agent-side error. ",
               "Check the agent status or ask the administrator for help.",
               Arrow + agentExc, Arrow + agentTitle], None)
  {
  }

  /** What follows the title when the details, a well-formed agent section and the content are all there. */
  lemma AfterTitleOf(data: seq<(string, Value)>, repr: Value -> string, details: string, agent: Value, content: string)
    requires details != [] && content != []
    requires Get(data, "data") == Some(Str(details))
    requires GetNotNone(data, "agent-details") == Some(agent)
    requires AgentLines(agent, repr).raised.None?
    requires Get(data, "content") == Some(Str(content))
    ensures AfterTitle(data, repr) ==
      Yielded([Arrow + "Error details: ", details] + AgentLines(agent, repr).pieces + ["\n" + content], None)
  {
    assert DetailsPieces(data, repr) == [Arrow + "Error details: ", details];
    assert ContentPieces(data) == Yielded(["\n" + content], None);
  }

  /** An error object with every part present: four entries answer each lookup the report makes. */
  lemma FullSample(title: string, details: string, agentExc: string, agentTitle: string, content: string)
    ensures var agent := Object([("exception", Str(agentExc)), ("title", Str(agentTitle))]);
      var data := [("title", Str(title)), ("data", Str(details)), ("agent-details", agent), ("content", Str(content))];
      && Get(data, "title") == Some(Str(title))
      && Get(data, "data") == Some(Str(details))
      && GetNotNone(data, "agent-details") == Some(agent)
      && GetNotNone(agent.entries, "exception") == Some(Str(agentExc))
      && GetNotNone(agent.entries, "title") == Some(Str(agentTitle))
      && Get(data, "content") == Some(Str(content))
  {
    var agent := Object([("exception", Str(agentExc)), ("title", Str(agentTitle))]);
    var data := [("title", Str(title)), ("data", Str(details)), ("agent-details", agent), ("content", Str(content))];
    assert Get(data[3..], "content") == Some(Str(content));
    assert Get(data[2..], "content") == Some(Str(content));
    assert Get(data[1..], "content") == Some(Str(content));
    assert Get(data[2..], "agent-details") == Some(agent);
    assert Get(data[1..], "agent-details") == Some(agent);
    assert Get(agent.entries[1..], "title") == Some(Str(agentTitle));
  }

  /**
   * Any other exception reports "Class: first argument" ('' without arguments), the
   * remaining arguments one per line, and the stripped traceback.
   */
  lemma OtherErrorPieces(className: string, args: seq<Value>, tb: seq<string>, repr: Value -> string)
    ensures var y := FormatError(OtherFailure(className, args, tb), repr);
      && y.raised.None? && |y.pieces| == 3
      && (args == [] ==> y.pieces[0] == className + ": \n" && y.pieces[1] == "")
      && (args != [] ==> y.pieces[0] == className + ": " + Text(args[0], repr) + "\n")
      && (args != [] ==> y.pieces[1] == Strings.Join(ArgTexts(args[1..], repr), "\n"))
      && (|args| == 2 ==> y.pieces[1] == Text(args[1], repr))
      && y.pieces[2] == "*** Traceback ***\n" + Strip(Strings.Join(tb, ""))
  {
  }

  // ---------------------------------------------------------------------------
  // The output file
  // ---------------------------------------------------------------------------

  /** `print_pretty` clears the terminal line with this sequence first. */
  const ClearLine: string := [Esc] + "[2K"

  /**
   * What `print_pretty` writes: the line clear, the status line and a carriage return,
   * then a newline unless the status is WAITING. A WAITING message with a newline is
   * refused before anything is written, as is an unknown status.
   */
  function PrettyOutput(msg: string, status: PrintStatus, style: Style, indent: Indent): (r: Outcome<string>)
    ensures r.Raised? <==> status == NotAStatus || (status == Waiting && '\n' in msg)
  {
    if status == Waiting && '\n' in msg then Raised(AssertionError("Waiting message must be a single line."))
    else match IndicatorOf(status)
      case Raised(e) => Raised(e)
      case Done(ind) =>
        Done(ClearLine + StatusLine(ind, msg, style, indent) + "\r" + (if status != Waiting then "\n" else ""))
  }

  /** `print_pretty` writes exactly the text `format_pretty` formats, between the line clear and "\r". */
  lemma PrintAgreesWithFormat(msg: string, status: PrintStatus, style: Style, indent: Indent)
    requires PrettyOutput(msg, status, style, indent).Done?
    ensures FormatPretty(msg, status, style, indent).Done?
    ensures PrettyOutput(msg, status, style, indent).value ==
      ClearLine + FormatPretty(msg, status, style, indent).value + "\r" + (if status != Waiting then "\n" else "")
  {
  }

  /** Only a WAITING line is left open for the next line to overwrite. */
  lemma NewlineUnlessWaiting(msg: string, status: PrintStatus, style: Style, indent: Indent)
    requires PrettyOutput(msg, status, style, indent).Done?
    ensures var out := PrettyOutput(msg, status, style, indent).value;
      |out| >= 1 && (out[|out| - 1] == '\n' <==> status != Waiting)
  {
  }

  /** What `print_error` writes after the optional line clear, once the report is complete. */
  function ErrorOutput(pieces: seq<string>, style: Style, indent: Indent): string
  {
    var ind := Indicator('\U{2718}', "bright_red");
    StatusLine(ind, Strings.Join(pieces, ""), style, indent) + "\r" + "\n"
  }

  /** A file the client writes to: the text written so far and how much of it was flushed. */
  class OutputFile {
    const isatty: bool
    var written: string
    var flushed: nat

    predicate Valid()
      reads this
    {
      flushed <= |written|
    }

    constructor(isatty: bool)
      ensures Valid() && this.isatty == isatty && written == [] && flushed == 0
    {
      this.isatty := isatty;
      written := [];
      flushed := 0;
    }

    /** `click.echo(text, nl=nl, file=self)`: click writes the text, then flushes the file. */
    method Echo(text: string, nl: bool)
      requires Valid()
      modifies this
      ensures Valid()
      ensures written == old(written) + text + (if nl then "\n" else "") && flushed == |written|
    {
      written := written + text + (if nl then "\n" else "");
      flushed := |written|;
    }

    /** `file.flush()`. */
    method Flush()
      requires Valid()
      modifies this
      ensures Valid() && written == old(written) && flushed == |written|
    {
      flushed := |written|;
    }

    /**
     * How `print_pretty` puts a formatted line on the file: the line clear, the text and
     * "\r", a flush, then the newline when the line is closed; each echo flushes too,
     * so all of it ends up flushed.
     */
    method ShowLine(text: string, newline: bool)
      requires Valid()
      modifies this
      ensures Valid()
      ensures written == old(written) + (ClearLine + text + "\r" + (if newline then "\n" else ""))
      ensures flushed == |written|
    {
      ghost var before := written;
      Echo(ClearLine, false);
      Echo(text + "\r", false);
      Flush();
      assert written == before + ClearLine + (text + "\r") + "";
      if newline {
        ghost var mid := written;
        Echo("", true);
        assert written == mid + "\n";
      }
    }

    /**
     * `print_pretty(msg, status=status, file=self)`: on success the file grows by
     * `PrettyOutput`, all of it flushed; on a refused message or status nothing is
     * written.
     */
    method PrintPretty(msg: string, status: PrintStatus, style: Style, indent: Indent) returns (error: Option<PyError>)
      requires Valid()
      modifies this
      ensures Valid()
      ensures error.Some? <==> PrettyOutput(msg, status, style, indent).Raised?
      ensures error.Some? ==> error.value == PrettyOutput(msg, status, style, indent).error &&
                              written == old(written) && flushed == old(flushed)
      ensures error.None? ==> written == old(written) + PrettyOutput(msg, status, style, indent).value
      ensures error.None? ==> flushed == |written|
    {
      var r := IndicatorOf(status);
      if status == Waiting && '\n' in msg {
        return Some(AssertionError("Waiting message must be a single line."));
      }
      if r.Raised? {
        return Some(r.error);
      }
      var ind := r.value;
      var text := indent(msg);
      text := style(StyledIndicator(ind, style) + DropFirst(text), None, true);
      assert text == StatusLine(ind, msg, style, indent);
      ShowLine(text, status != Waiting);
      return None;
    }

    /** The part of `print_error` after the report is assembled: the styled line, "\r", a newline, a flush. */
    method ReportError(pieces: seq<string>, style: Style, indent: Indent)
      requires Valid()
      modifies this
      ensures Valid()
      ensures written == old(written) + ErrorOutput(pieces, style, indent) && flushed == |written|
    {
      ghost var before := written;
      var ind := Indicator('\U{2718}', "bright_red");
      var text := Strings.Join(pieces, "");
      text := indent(text);
      text := style(StyledIndicator(ind, style) + DropFirst(text), None, true);
      assert text + "\r" + "\n" == ErrorOutput(pieces, style, indent);
      Echo(text + "\r", false);
      ghost var mid := written;
      Echo("", true);
      assert written == mid + "\n";
      assert written == before + (text + "\r" + "\n");
      Flush();
    }

    /**
     * `print_error(exc, file=self)`: a terminal gets the line clear first; the report
     * is then assembled, and an exception raised while assembling it propagates after
     * that clear was written and flushed; otherwise the report follows, then a newline, then a flush.
     */
    method PrintError(exc: Failure, repr: Value -> string, style: Style, indent: Indent) returns (error: Option<PyError>)
      requires Valid()
      modifies this
      ensures Valid()
      ensures var y := FormatError(exc, repr);
        && error == y.raised
        && (error.Some? ==> written == old(written) + (if isatty then ClearLine else ""))
        && (error.Some? ==> flushed == if isatty then |written| else old(flushed))
        && (error.None? ==> written == old(written) + (if isatty then ClearLine else "") + ErrorOutput(y.pieces, style, indent))
        && (error.None? ==> flushed == |written|)
    {
      ghost var before := written;
      if isatty {
        Echo(ClearLine, false);
      }
      ghost var clear := if isatty then ClearLine else "";
      assert written == before + clear;
      var y := FormatError(exc, repr);
      if y.raised.Some? {
        return y.raised;
      }
      ReportError(y.pieces, style, indent);
      return None;
    }
  }
}
