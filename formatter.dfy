/** SlackLogDevice::Formatter: renders one log record (a severity, a program name and a
    message that is text or an exception) into chat text of at most MaxMessageLength
    characters, and holds the configuration it renders with.

    The sections are built in a fixed order: a headline, an optional metadata block, and
    for exceptions an optional fenced backtrace and the "Caused by" chain.  Each section
    is appended only when it fits what is left of the budget, and every cut goes
    through Truncate. */
module Formatter {
  import opened Wrappers
  import opened Text
  import opened FormatterMessage

  const MaxMessageLength: nat := 4000
  const Ellipsis: string := "..."
  const Fence: string := "```"
  /** The bullet that opens each metadata line (U+2022). */
  const Bullet: string := "\U{2022}"
  const DefaultMaxBacktraceLines: int := 10

  /** The severities of Ruby's Logger: the keys of the icon table. */
  datatype Severity = Debug | Info | Warn | Error | Fatal | Unknown

  /** Every severity, in the order of the icon table. */
  const AllSeverities: seq<Severity> := [Debug, Info, Warn, Error, Fatal, Unknown]

  /** A severity's name, as the icon table spells its key. */
  function SeverityName(s: Severity): string {
    match s
    case Debug => "DEBUG"
    case Info => "INFO"
    case Warn => "WARN"
    case Error => "ERROR"
    case Fatal => "FATAL"
    case Unknown => "UNKNOWN"
  }

  /** Where a severity sits in the list of severities: the list leaves none out. */
  function SeverityIndex(s: Severity): (i: nat)
    ensures i < |AllSeverities| && AllSeverities[i] == s
  {
    match s
    case Debug => 0
    case Info => 1
    case Warn => 2
    case Error => 3
    case Fatal => 4
    case Unknown => 5
  }

  /** The list of severities leaves none out. */
  lemma AllSeveritiesComplete()
    ensures forall s: Severity :: s in AllSeverities
  {
    forall s: Severity ensures s in AllSeverities {
      assert AllSeverities[SeverityIndex(s)] == s;
    }
  }

  const DefaultIconEmojis: map<Severity, Option<string>> := map[
    Debug := Some(":bug:"),
    Info := Some(":information_source:"),
    Warn := Some(":warning:"),
    Error := Some(":x:"),
    Fatal := Some(":fire:"),
    Unknown := Some(":interrobang:")
  ]

  datatype FormatterError =
    | InvalidSeverity(value: string)
    | InvalidMaxBacktraceLines(given: Option<int>)

  /** An exception as the formatter reads it: class name, message, backtrace (nil is
      the empty backtrace) and the exception it was raised while handling. */
  datatype Exception = Exception(className: string, message: string, backtrace: seq<string>, cause: Option<Exception>)

  /** The request the Rack middleware stores for the current thread. */
  datatype Request = Request(verb: string, url: string, remoteAddr: string, userAgent: string)

  /** What a callable metadata value is called with: the exception, only when an
      exception is being logged, and the request, only when there is one. */
  datatype Context = Context(exception: Option<Exception>, request: Option<Request>)

  /** A metadata value: a string, or a callable evaluated at render time. */
  datatype MetaValue = Literal(text: string) | Computed(compute: Context -> string)

  /** An ordered hash from metadata names to values, as an association list. */
  type Metadata = seq<(string, MetaValue)>

  /** What was logged: text (anything else is first turned into text by to_s) or an exception. */
  datatype LogMessage = Plain(text: string) | Raised(error: Exception)

  /** The process identity the default metadata reports: $USER (empty when unset), the
      host name and the process id. */
  datatype Host = Host(user: string, hostname: string, pid: nat)

  /** The configuration a render reads. */
  datatype Settings = Settings(
    disableDefaultMetadata: bool,
    extraMetadata: Metadata,
    maxBacktraceLines: int,
    convert: string -> string)

  // ---------------------------------------------------------------------------
  // Truncation

  /** truncate: strip, then cut to maxLength characters, spending the last three on an
      ellipsis when there is room for one. */
  function Truncate(message: string, maxLength: nat): (r: string)
    ensures |r| <= maxLength
    ensures |Strip(message)| <= maxLength ==> r == Strip(message)
    ensures |Strip(message)| > maxLength ==> |r| == maxLength
    ensures |Strip(message)| > maxLength && maxLength >= 3 ==> r == Strip(message)[..maxLength - 3] + Ellipsis
    ensures |Strip(message)| > maxLength && maxLength < 3 ==> r == Strip(message)[..maxLength]
    ensures maxLength >= 3 && !Blank(message) ==> Trimmed(r)
  {
    var m := Strip(message);
    if |m| <= maxLength then m
    else if maxLength < 3 then m[..maxLength]
    else m[..maxLength - 3] + Ellipsis
  }

  /** With room for the ellipsis, truncating twice is truncating once. */
  lemma TruncateIdempotent(message: string, maxLength: nat)
    requires maxLength >= 3
    ensures Truncate(Truncate(message, maxLength), maxLength) == Truncate(message, maxLength)
  {
    var r := Truncate(message, maxLength);
    if Blank(message) {
      assert r == [];
    } else {
      assert Strip(r) == r;
    }
  }

  // ---------------------------------------------------------------------------
  // Headline

  /** convert_message: the converter is applied to the stripped message and its result
      stripped again. */
  function ConvertMessage(convert: string -> string, message: string): (r: string)
    ensures r == [] || Trimmed(r)
  {
    Strip(convert(Strip(message)))
  }

  /** "*`SEVERITY`*", then " (*progname*)" when the program name is not blank, then ":". */
  function Label(severity: string, progname: Option<string>): string {
    "*`" + severity + "`*"
    + (if progname.Some? && !Blank(progname.value) then " (*" + progname.value + "*)" else "")
    + ":"
  }

  /** The headline of a text message, before any truncation. */
  function PlainHeadline(settings: Settings, severity: string, progname: Option<string>, text: string): string {
    Label(severity, progname) + RStrip(" " + ConvertMessage(settings.convert, text))
  }

  /** The headline of an exception, before any truncation. */
  function ExceptionHeadline(settings: Settings, severity: string, progname: Option<string>, e: Exception): string {
    Label(severity, progname)
    + RStrip(" A `" + e.className + "` occurred: " + ConvertMessage(settings.convert, e.message))
  }

  /** A text headline is the label, then one space and the converted message when that
      is not blank; a blank converted message leaves the headline ending in ":". */
  lemma PlainHeadlineShape(settings: Settings, severity: string, progname: Option<string>, text: string)
    ensures var m := ConvertMessage(settings.convert, text);
      PlainHeadline(settings, severity, progname, text)
        == Label(severity, progname) + (if m == [] then "" else " " + m)
    ensures Trimmed(PlainHeadline(settings, severity, progname, text))
  {
    var m := ConvertMessage(settings.convert, text);
    var l := Label(severity, progname);
    SpacedTail(m);
    LabelEnds(severity, progname);
    TrimmedConcat(l, RStrip(" " + m));
  }

  /** The rstripped part of a text headline: nothing for an empty message, otherwise one
      space and the message. */
  lemma SpacedTail(m: string)
    requires m == [] || Trimmed(m)
    ensures RStrip(" " + m) == if m == [] then "" else " " + m
  {
    RStripSpaceWord("", m);
    assert "" + " " + m == " " + m;
  }

  /** A label opens with '*' and closes with ':'. */
  lemma LabelEnds(severity: string, progname: Option<string>)
    ensures var l := Label(severity, progname); l != [] && l[0] == '*' && l[|l| - 1] == ':'
  {
  }

  /** A string that opens and closes with non-space characters, followed by a string that
      is empty or closes with one, is trimmed. */
  lemma TrimmedConcat(l: string, t: string)
    requires l != [] && !IsSpace(l[0]) && !IsSpace(l[|l| - 1])
    requires t == [] || !IsSpace(t[|t| - 1])
    ensures Trimmed(l + t)
  {
    var h := l + t;
    assert h[0] == l[0];
    if t == [] {
      assert h == l;
    } else {
      assert h[|h| - 1] == t[|t| - 1];
    }
  }

  /** An exception headline is the label, " A `Class` occurred:", then one space and the
      converted message when that is not blank. */
  lemma ExceptionHeadlineShape(settings: Settings, severity: string, progname: Option<string>, e: Exception)
    ensures var m := ConvertMessage(settings.convert, e.message);
      var h := ExceptionHeadline(settings, severity, progname, e);
      && (m == [] ==> h == Label(severity, progname) + (" A `" + e.className + "` occurred:"))
      && (m != [] ==> h == Label(severity, progname) + (" A `" + e.className + "` occurred: " + m))
    ensures Trimmed(ExceptionHeadline(settings, severity, progname, e))
  {
    var m := ConvertMessage(settings.convert, e.message);
    var l := Label(severity, progname);
    OccurredTail(e.className, m);
    LabelEnds(severity, progname);
    TrimmedConcat(l, RStrip(" A `" + e.className + "` occurred: " + m));
  }

  /** The rstripped part of an exception headline. */
  lemma OccurredTail(className: string, m: string)
    requires m == [] || Trimmed(m)
    ensures m == [] ==> RStrip(" A `" + className + "` occurred: " + m) == " A `" + className + "` occurred:"
    ensures m != [] ==> RStrip(" A `" + className + "` occurred: " + m) == " A `" + className + "` occurred: " + m
  {
    var core := " A `" + className + "` occurred:";
    assert core[|core| - 1] == ':';
    RStripSpaceWord(core, m);
    assert " A `" + className + "` occurred: " + m == core + " " + m;
  }

  // ---------------------------------------------------------------------------
  // Backtrace

  /** select(&:present?): the backtrace lines that are not blank, in order. */
  function PresentLines(lines: seq<string>): (r: seq<string>)
    ensures |r| <= |lines|
    ensures forall i :: 0 <= i < |r| ==> !Blank(r[i]) && r[i] in lines
    ensures forall i :: 0 <= i < |lines| && !Blank(lines[i]) ==> lines[i] in r
    ensures r == [] <==> forall i :: 0 <= i < |lines| ==> Blank(lines[i])
  {
    if lines == [] then []
    else
      var rest := PresentLines(lines[1..]);
      assert forall i :: 1 <= i < |lines| ==> lines[i] == lines[1..][i - 1];
      if Blank(lines[0]) then rest else [lines[0]] + rest
  }

  /** Selecting from a concatenation selects from each part, in order; with
      PresentLinesOne this pins PresentLines down as the in-order filter. */
  lemma {:induction false} PresentLinesAppend(a: seq<string>, b: seq<string>)
    ensures PresentLines(a + b) == PresentLines(a) + PresentLines(b)
  {
    if a == [] {
      assert a + b == b;
    } else {
      assert (a + b)[0] == a[0];
      assert (a + b)[1..] == a[1..] + b;
      PresentLinesAppend(a[1..], b);
    }
  }

  /** A single line is kept exactly when it is not blank. */
  lemma PresentLinesOne(line: string)
    ensures PresentLines([line]) == if Blank(line) then [] else [line]
  {
    assert [line][1..] == [];
  }

  /** The text that goes inside the fence: every present line when the limit is
      negative, otherwise the first maxLines of them followed by "\n..." when some were
      left out. */
  function BacktraceText(present: seq<string>, maxLines: int): (r: string)
    ensures maxLines < 0 || |present| <= maxLines ==> r == Join(present, "\n")
    ensures 0 <= maxLines < |present| ==> r == Join(present[..maxLines], "\n") + "\n..."
  {
    if maxLines < 0 then Join(present, "\n")
    else if |present| > maxLines then Join(present[..maxLines], "\n") + "\n..."
    else Join(present, "\n")
  }

  /** Text that starts with something non-blank is not blank. */
  lemma NotBlankPrefix(a: string, b: string)
    requires !Blank(a)
    ensures !Blank(a + b)
  {
    var i :| 0 <= i < |a| && !IsSpace(a[i]);
    assert (a + b)[i] == a[i];
  }

  /** With at least one present line to show, the fenced text is not blank. */
  lemma BacktraceTextNotBlank(present: seq<string>, maxLines: int)
    requires present != [] && maxLines != 0
    requires forall i :: 0 <= i < |present| ==> !Blank(present[i])
    ensures !Blank(BacktraceText(present, maxLines))
  {
    var shown := if maxLines < 0 || |present| <= maxLines then present else present[..maxLines];
    assert shown[0] == present[0];
    JoinStartsWithFirst(shown, "\n");
    var j := Join(shown, "\n");
    NotBlankPrefix(shown[0], j[|shown[0]|..]);
    assert j == shown[0] + j[|shown[0]|..];
    if maxLines >= 0 && |present| > maxLines {
      NotBlankPrefix(j, "\n...");
    }
  }

  /** format_backtrace: nothing when backtraces are switched off, when fewer than seven
      characters are left, or when no line is present; otherwise the kept lines inside a
      pair of fences, the inner text cut so that the whole block fits. */
  function FormatBacktrace(maxLines: int, e: Exception, sizeAvailable: int): (r: Option<string>)
    ensures r.None? <==> maxLines == 0 || sizeAvailable < 7 || forall i :: 0 <= i < |e.backtrace| ==> Blank(e.backtrace[i])
    ensures r.Some? ==> 7 <= |r.value| <= sizeAvailable && Trimmed(r.value)
    ensures r.Some? ==> r.value[..3] == Fence && r.value[|r.value| - 3..] == Fence
    ensures r.Some? ==>
      r.value == Fence + Truncate(BacktraceText(PresentLines(e.backtrace), maxLines), sizeAvailable - 6) + Fence
  {
    if maxLines == 0 || sizeAvailable < 7 then None
    else
      var present := PresentLines(e.backtrace);
      if present == [] then None
      else
        var text := BacktraceText(present, maxLines);
        BacktraceTextNotBlank(present, maxLines);
        var inner := Truncate(text, sizeAvailable - 6);
        var block := Fence + inner + Fence;
        assert block[..3] == Fence && block[|block| - 3..] == Fence;
        Some(block)
  }

  // ---------------------------------------------------------------------------
  // Metadata

  /** The first value stored under a name, if any. */
  function Lookup(m: Metadata, name: string): Option<MetaValue> {
    if m == [] then None
    else if m[0].0 == name then Some(m[0].1)
    else Lookup(m[1..], name)
  }

  /** The names of an association list, in order. */
  function Names(m: Metadata): (r: seq<string>)
    ensures |r| == |m|
    ensures forall i :: 0 <= i < |m| ==> r[i] == m[i].0
  {
    seq(|m|, i requires 0 <= i < |m| => m[i].0)
  }

  /** The base entries, each taking the value extra has under the same name when it has one. */
  function Overridden(base: Metadata, extra: Metadata): (r: Metadata)
    ensures Names(r) == Names(base)
  {
    if base == [] then []
    else
      var (name, value) := base[0];
      var v := match Lookup(extra, name) case Some(x) => x case None => value;
      [(name, v)] + Overridden(base[1..], extra)
  }

  /** The entries of extra whose names base does not have, in extra's order. */
  function Additions(extra: Metadata, base: Metadata): Metadata {
    if extra == [] then []
    else
      (if Lookup(base, extra[0].0).Some? then [] else [extra[0]]) + Additions(extra[1..], base)
  }

  /** Hash#merge: base's names keep their places and take extra's value where extra has
      one; extra's other names follow, in its order. */
  function Merge(base: Metadata, extra: Metadata): Metadata {
    Overridden(base, extra) + Additions(extra, base)
  }

  /** Looking a name up in a concatenation finds it in the first part when it is there. */
  lemma {:induction false} LookupAppend(a: Metadata, b: Metadata, name: string)
    ensures Lookup(a + b, name) == if Lookup(a, name).Some? then Lookup(a, name) else Lookup(b, name)
  {
    if a != [] {
      assert (a + b)[0] == a[0];
      assert (a + b)[1..] == a[1..] + b;
      LookupAppend(a[1..], b, name);
    } else {
      assert a + b == b;
    }
  }

  /** Overridden has a name exactly where base has it, with extra's value when extra has one. */
  lemma {:induction false} LookupOverridden(base: Metadata, extra: Metadata, name: string)
    ensures Lookup(Overridden(base, extra), name).Some? <==> Lookup(base, name).Some?
    ensures Lookup(base, name).Some? && Lookup(extra, name).Some? ==>
      Lookup(Overridden(base, extra), name) == Lookup(extra, name)
    ensures Lookup(extra, name).None? ==> Lookup(Overridden(base, extra), name) == Lookup(base, name)
  {
    if base != [] {
      LookupOverridden(base[1..], extra, name);
    }
  }

  /** Additions has a name exactly where extra has it and base does not, with extra's value. */
  lemma {:induction false} LookupAdditions(extra: Metadata, base: Metadata, name: string)
    ensures Lookup(base, name).Some? ==> Lookup(Additions(extra, base), name).None?
    ensures Lookup(base, name).None? ==> Lookup(Additions(extra, base), name) == Lookup(extra, name)
  {
    if extra != [] {
      var head: Metadata := if Lookup(base, extra[0].0).Some? then [] else [extra[0]];
      LookupAppend(head, Additions(extra[1..], base), name);
      LookupAdditions(extra[1..], base, name);
    }
  }

  /** Merging lets extra entries win over base entries of the same name and keeps every
      other base entry, and base's names stay first, in their order. */
  lemma MergeLookup(base: Metadata, extra: Metadata, name: string)
    ensures Lookup(extra, name).Some? ==> Lookup(Merge(base, extra), name) == Lookup(extra, name)
    ensures Lookup(extra, name).None? ==> Lookup(Merge(base, extra), name) == Lookup(base, name)
    ensures |base| <= |Merge(base, extra)| && Names(Merge(base, extra))[..|base|] == Names(base)
  {
    LookupAppend(Overridden(base, extra), Additions(extra, base), name);
    LookupOverridden(base, extra, name);
    LookupAdditions(extra, base, name);
    var m := Merge(base, extra);
    assert forall i :: 0 <= i < |base| ==> m[i] == Overridden(base, extra)[i];
  }

  /** A present default value is shown stripped, between backticks. */
  function Quote(value: string): string {
    if Blank(value) then value else "`" + Strip(value) + "`"
  }

  /** default_metadata: nothing when disabled; otherwise the request's method, URL, remote
      address and user agent when there is a request, then the user, the machine and the
      process id, each present value quoted. The values are stated by DefaultMetadataValues. */
  function DefaultMetadata(disabled: bool, request: Option<Request>, host: Host): (m: Metadata)
    ensures disabled ==> m == []
    ensures !disabled ==> (Names(m) ==
      (if request.Some? then ["Method", "URL", "Remote address", "User-Agent"] else [])
      + ["User", "Machine", "PID"])
    ensures forall i :: 0 <= i < |m| ==> m[i].1.Literal?
  {
    if disabled then []
    else
      var raw := RequestDefaults(request)
        + [("User", host.user), ("Machine", host.hostname), ("PID", NatToDecimal(host.pid))];
      QuoteValues(raw)
  }

  /** The request's four values, unquoted; none without a request. */
  function RequestDefaults(request: Option<Request>): seq<(string, string)> {
    match request
    case None => []
    case Some(r) => [("Method", r.verb), ("URL", r.url), ("Remote address", r.remoteAddr), ("User-Agent", r.userAgent)]
  }

  /** Every entry keeps its name and position, its value quoted. */
  function QuoteValues(raw: seq<(string, string)>): (m: Metadata)
    ensures |m| == |raw|
    ensures forall i :: 0 <= i < |raw| ==> m[i] == (raw[i].0, Literal(Quote(raw[i].1)))
  {
    seq(|raw|, i requires 0 <= i < |raw| => (raw[i].0, Literal(Quote(raw[i].1))))
  }

  /** The last three default entries hold the quoted user, machine and process id. */
  lemma DefaultMetadataValues(request: Option<Request>, host: Host)
    ensures var m := DefaultMetadata(false, request, host); var n := |m|;
      && n >= 3
      && m[n - 3] == ("User", Literal(Quote(host.user)))
      && m[n - 2] == ("Machine", Literal(Quote(host.hostname)))
      && m[n - 1] == ("PID", Literal(Quote(NatToDecimal(host.pid))))
  {
    var tail := [("User", host.user), ("Machine", host.hostname), ("PID", NatToDecimal(host.pid))];
    var raw := RequestDefaults(request) + tail;
    var n := |raw|;
    assert raw[n - 3] == tail[0] && raw[n - 2] == tail[1] && raw[n - 1] == tail[2];
  }

  /** With a request, its four entries come first, each holding its quoted value. */
  lemma DefaultMetadataRequestValues(request: Option<Request>, host: Host)
    ensures request.Some? ==> var m := DefaultMetadata(false, request, host); var r := request.value;
      && |m| == 7
      && m[0] == ("Method", Literal(Quote(r.verb)))
      && m[1] == ("URL", Literal(Quote(r.url)))
      && m[2] == ("Remote address", Literal(Quote(r.remoteAddr)))
      && m[3] == ("User-Agent", Literal(Quote(r.userAgent)))
  {
  }

  /** The context callables receive: the exception only when an exception is logged. */
  function MetadataContext(message: LogMessage, request: Option<Request>): (ctx: Context)
    ensures ctx.exception.Some? <==> message.Raised?
    ensures message.Raised? ==> ctx.exception == Some(message.error)
    ensures ctx.request == request
  {
    Context(if message.Raised? then Some(message.error) else None, request)
  }

  /** A value as shown: the string itself, or what the callable returns for the context. */
  function Resolve(value: MetaValue, ctx: Context): string {
    match value
    case Literal(t) => t
    case Computed(f) => f(ctx)
  }

  /** One metadata line: bullet, the stripped name in bold, the stripped value. */
  function MetadataLine(name: string, value: string): string {
    Bullet + " *" + Strip(name) + "*: " + Strip(value)
  }

  /** The lines of the metadata block: one per entry whose value is not blank, in order.
      What the lines are is stated by MetadataLinesFacts and the lemmas after it. */
  function MetadataLines(entries: Metadata, ctx: Context): (lines: seq<string>)
    ensures |lines| <= |entries|
  {
    if entries == [] then []
    else
      var value := Resolve(entries[0].1, ctx);
      var rest := MetadataLines(entries[1..], ctx);
      if Blank(value) then rest else [MetadataLine(entries[0].0, value)] + rest
  }

  /** Each line starts with the bullet, and there is none exactly when every value is blank. */
  lemma {:induction false} MetadataLinesFacts(entries: Metadata, ctx: Context)
    ensures var lines := MetadataLines(entries, ctx);
      && (forall i :: 0 <= i < |lines| ==> lines[i] != [] && lines[i][0] == Bullet[0])
      && (lines == [] <==> forall i :: 0 <= i < |entries| ==> Blank(Resolve(entries[i].1, ctx)))
  {
    if entries != [] {
      var value := Resolve(entries[0].1, ctx);
      var rest := MetadataLines(entries[1..], ctx);
      MetadataLinesFacts(entries[1..], ctx);
      BlankValuesCons(entries, ctx);
      if !Blank(value) {
        MetadataLineBullet(entries[0].0, value);
        BulletLinesCons(MetadataLine(entries[0].0, value), rest);
      }
    }
  }

  /** The lines of a concatenation are the lines of each part, in order; with
      MetadataLinesOne this pins MetadataLines down as one line per entry with a value
      that is not blank, in the entries' order. */
  lemma {:induction false} MetadataLinesAppend(a: Metadata, b: Metadata, ctx: Context)
    ensures MetadataLines(a + b, ctx) == MetadataLines(a, ctx) + MetadataLines(b, ctx)
  {
    if a == [] {
      assert a + b == b;
    } else {
      assert (a + b)[0] == a[0];
      assert (a + b)[1..] == a[1..] + b;
      MetadataLinesAppend(a[1..], b, ctx);
    }
  }

  /** One entry gives its line exactly when its value is not blank. */
  lemma MetadataLinesOne(name: string, value: MetaValue, ctx: Context)
    ensures MetadataLines([(name, value)], ctx) ==
      if Blank(Resolve(value, ctx)) then [] else [MetadataLine(name, Resolve(value, ctx))]
  {
    assert [(name, value)][1..] == [];
  }

  /** Every entry whose value is not blank has its line. */
  lemma {:induction false} MetadataLinesShowEntry(entries: Metadata, ctx: Context, i: nat)
    requires i < |entries| && !Blank(Resolve(entries[i].1, ctx))
    ensures MetadataLine(entries[i].0, Resolve(entries[i].1, ctx)) in MetadataLines(entries, ctx)
  {
    var lines := MetadataLines(entries, ctx);
    var rest := MetadataLines(entries[1..], ctx);
    if i > 0 {
      assert entries[1..][i - 1] == entries[i];
      MetadataLinesShowEntry(entries[1..], ctx, i - 1);
      assert rest == lines || rest == lines[1..];
    }
  }

  /** Every value is blank exactly when the first one is and every later one is. */
  lemma BlankValuesCons(entries: Metadata, ctx: Context)
    requires entries != []
    ensures (forall i :: 0 <= i < |entries| ==> Blank(Resolve(entries[i].1, ctx))) <==>
      Blank(Resolve(entries[0].1, ctx)) &&
      forall i :: 0 <= i < |entries[1..]| ==> Blank(Resolve(entries[1..][i].1, ctx))
  {
    var tail := entries[1..];
    assert forall i :: 0 <= i < |tail| ==> tail[i] == entries[i + 1];
  }

  /** Lines that each start with the bullet still do with one more such line in front. */
  lemma BulletLinesCons(line: string, rest: seq<string>)
    requires line != [] && line[0] == Bullet[0]
    requires forall i :: 0 <= i < |rest| ==> rest[i] != [] && rest[i][0] == Bullet[0]
    ensures forall i :: 0 <= i < |[line] + rest| ==> ([line] + rest)[i] != [] && ([line] + rest)[i][0] == Bullet[0]
  {
    var lines := [line] + rest;
    forall i | 0 <= i < |lines| ensures lines[i] != [] && lines[i][0] == Bullet[0] {
      if i > 0 {
        assert lines[i] == rest[i - 1];
      }
    }
  }

  /** A metadata line starts with the bullet. */
  lemma MetadataLineBullet(name: string, value: string)
    ensures MetadataLine(name, value) != [] && MetadataLine(name, value)[0] == Bullet[0]
  {
    assert MetadataLine(name, value) == Bullet + (" *" + Strip(name) + "*: " + Strip(value));
  }

  /** The entries a render shows: the defaults merged with the extra metadata. */
  function AllMetadata(settings: Settings, request: Option<Request>, host: Host): Metadata {
    Merge(DefaultMetadata(settings.disableDefaultMetadata, request, host), settings.extraMetadata)
  }

  /** format_metadata: nothing when fewer than eleven characters are left or when every
      value is blank; otherwise the lines joined by newlines, cut to fit. */
  function FormatMetadata(settings: Settings, message: LogMessage, request: Option<Request>, host: Host, sizeAvailable: int)
    : (r: Option<string>)
    ensures r.None? <==>
      sizeAvailable < 11 || MetadataLines(AllMetadata(settings, request, host), MetadataContext(message, request)) == []
    ensures r.Some? ==> |r.value| <= sizeAvailable && Trimmed(r.value)
    ensures r.Some? ==> r.value == Truncate(Join(MetadataLines(AllMetadata(settings, request, host),
      MetadataContext(message, request)), "\n"), sizeAvailable)
  {
    if sizeAvailable < 11 then None
    else
      var lines := MetadataLines(AllMetadata(settings, request, host), MetadataContext(message, request));
      MetadataLinesFacts(AllMetadata(settings, request, host), MetadataContext(message, request));
      var text := Join(lines, "\n");
      assert !IsSpace(Bullet[0]);
      JoinBlankIffEmpty(lines, "\n");
      if Blank(text) then None else Some(Truncate(text, sizeAvailable))
  }

  // ---------------------------------------------------------------------------
  // Sections

  /** A section after a blank line, when there is one: the "present?" test on either side
      of append_metadata and append_exception_backtrace. */
  function AppendBlock(text: string, block: Option<string>): (r: string)
    ensures block.None? ==> r == text
    ensures block.Some? ==>
      |r| == |text| + 2 + |block.value| && r[..|text| + 2] == text + "\n\n" && r[|text| + 2..] == block.value
    ensures |text| <= |r| && r[..|text|] == text
    ensures Trimmed(text) && block.Some? && Trimmed(block.value) ==> Trimmed(r)
    ensures block.Some? && |block.value| >= 3 ==> r[|r| - 3..] == block.value[|block.value| - 3..]
  {
    match block
    case None => text
    case Some(b) =>
      var r := text + "\n\n" + b;
      assert r[..|text| + 2] == text + "\n\n";
      assert r[|text| + 2..] == b;
      assert b != [] ==> r[|r| - 1] == b[|b| - 1];
      assert |b| >= 3 ==> r[|r| - 3..] == b[|b| - 3..];
      r
  }

  /** append_metadata: the metadata block after a blank line, when it fits what is left
      of the budget once the two separator characters are counted. */
  function AppendMetadata(settings: Settings, text: string, message: LogMessage, request: Option<Request>, host: Host)
    : (r: string)
    ensures r == text || (|text| + 2 < |r| && r[..|text| + 2] == text + "\n\n")
    ensures |text| <= |r| && r[..|text|] == text
    ensures |text| <= MaxMessageLength ==> |r| <= MaxMessageLength
    ensures Trimmed(text) ==> Trimmed(r)
    ensures var b := FormatMetadata(settings, message, request, host, MaxMessageLength - |text| - 2);
      (b.None? ==> r == text) && (b.Some? ==> r == text + "\n\n" + b.value)
  {
    AppendBlock(text, FormatMetadata(settings, message, request, host, MaxMessageLength - |text| - 2))
  }

  /** append_exception_backtrace: the fenced backtrace after a blank line, when it fits. */
  function AppendExceptionBacktrace(settings: Settings, text: string, e: Exception): (r: string)
    ensures r == text || (|text| + 2 < |r| && r[..|text| + 2] == text + "\n\n" && r[|r| - 3..] == Fence)
    ensures |text| <= |r| && r[..|text|] == text
    ensures |text| <= MaxMessageLength ==> |r| <= MaxMessageLength
    ensures Trimmed(text) ==> Trimmed(r)
    ensures var b := FormatBacktrace(settings.maxBacktraceLines, e, MaxMessageLength - |text| - 2);
      (b.None? ==> r == text) && (b.Some? ==> r == text + "\n\n" + b.value)
  {
    AppendBlock(text, FormatBacktrace(settings.maxBacktraceLines, e, MaxMessageLength - |text| - 2))
  }

  /** The part of a cause's heading that must fit for the cause to be shown. */
  function CauseLabel(cause: Exception): string {
    "\n\nCaused by `" + cause.className + "`"
  }

  /** Text that opens with a trimmed piece keeps it through a truncation to the full
      budget, as long as the piece leaves room for the ellipsis. */
  lemma TruncateKeepsPrefix(a: string, b: string)
    requires Trimmed(a) && |a| <= MaxMessageLength - 3
    ensures |a| <= |Truncate(a + b, MaxMessageLength)|
    ensures Truncate(a + b, MaxMessageLength)[..|a|] == a
    ensures Trimmed(Truncate(a + b, MaxMessageLength))
  {
    StripKeepsPrefix(a, b);
    NotBlankPrefix(a, b) by { assert !IsSpace(a[0]); }
  }

  /** One step of append_exception_cause, taken once the cause's class name fits: the
      heading and the cause's message, cut to the budget, then the cause's backtrace. */
  function CauseSection(settings: Settings, text: string, cause: Exception): (r: string)
    requires |text + CauseLabel(cause)| <= MaxMessageLength
    ensures |r| <= MaxMessageLength
    ensures Trimmed(text) ==> Trimmed(r) && |text| <= |r| && r[..|text|] == text
    ensures r == AppendExceptionBacktrace(settings,
      Truncate(text + CauseLabel(cause) + ": " + cause.message, MaxMessageLength), cause)
  {
    var withCause := Truncate(text + CauseLabel(cause) + ": " + cause.message, MaxMessageLength);
    if Trimmed(text) then
      CauseHeadingKeepsText(text, cause);
      var r := AppendExceptionBacktrace(settings, withCause, cause);
      PrefixOfPrefix(text, withCause, r);
      r
    else
      AppendExceptionBacktrace(settings, withCause, cause)
  }

  /** The heading cut to the budget still opens with the whole trimmed text before it. */
  lemma CauseHeadingKeepsText(text: string, cause: Exception)
    requires Trimmed(text) && |text + CauseLabel(cause)| <= MaxMessageLength
    ensures var w := Truncate(text + CauseLabel(cause) + ": " + cause.message, MaxMessageLength);
      Trimmed(w) && |text| <= |w| && w[..|text|] == text
  {
    var rest := CauseLabel(cause) + ": " + cause.message;
    assert text + CauseLabel(cause) + ": " + cause.message == text + rest;
    assert |CauseLabel(cause)| >= 14;
    TruncateKeepsPrefix(text, rest);
  }

  /** When the label fills the budget exactly, the truncation cuts into the label itself:
      the text ends in its first 3997 characters and the ellipsis, with no backtrace. */
  lemma CauseLabelCut(settings: Settings, text: string, cause: Exception)
    requires Trimmed(text) && |text + CauseLabel(cause)| == MaxMessageLength
    ensures CauseSection(settings, text, cause) == (text + CauseLabel(cause))[..MaxMessageLength - 3] + Ellipsis
  {
    var a := text + CauseLabel(cause) + ":";
    assert a[0] == text[0] && a[|a| - 1] == ':';
    var b := " " + cause.message;
    assert text + CauseLabel(cause) + ": " + cause.message == a + b;
    StripKeepsPrefix(a, b);
    var withCause := Truncate(a + b, MaxMessageLength);
    assert withCause == Strip(a + b)[..MaxMessageLength - 3] + Ellipsis;
    assert Strip(a + b)[..MaxMessageLength - 3] == a[..MaxMessageLength - 3];
    assert a[..MaxMessageLength - 3] == (text + CauseLabel(cause))[..MaxMessageLength - 3];
  }

  /** append_exception_cause: while the next cause's "Caused by `Class`" still fits, the
      cause's section; the chain stops at the first cause that does not fit. */
  function AppendExceptionCause(settings: Settings, text: string, e: Exception): (r: string)
    ensures |text| <= MaxMessageLength ==> |r| <= MaxMessageLength
    ensures Trimmed(text) && |text| <= MaxMessageLength ==>
      Trimmed(r) && |text| <= |r| && r[..|text|] == text
    ensures e.cause.None? ==> r == text
    ensures e.cause.Some? && |text + CauseLabel(e.cause.value)| > MaxMessageLength ==> r == text
    ensures e.cause.Some? && |text + CauseLabel(e.cause.value)| <= MaxMessageLength ==>
      r == AppendExceptionCause(settings, CauseSection(settings, text, e.cause.value), e.cause.value)
    decreases e
  {
    match e.cause
    case None => text
    case Some(cause) =>
      if |text + CauseLabel(cause)| > MaxMessageLength then text
      else
        var next := CauseSection(settings, text, cause);
        var r := AppendExceptionCause(settings, next, cause);
        if Trimmed(text) then
          PrefixOfPrefix(text, next, r);
          r
        else r
  }

  // ---------------------------------------------------------------------------
  // Rendering

  /** What follows an exception's headline: metadata, backtrace and causes, each appended
      only when it fits. */
  function ExceptionSections(settings: Settings, headline: string, e: Exception, request: Option<Request>, host: Host)
    : (r: string)
    ensures |headline| <= MaxMessageLength ==> |r| <= MaxMessageLength
  {
    var withMetadata := AppendMetadata(settings, headline, Raised(e), request, host);
    var withTrace := AppendExceptionBacktrace(settings, withMetadata, e);
    AppendExceptionCause(settings, withTrace, e)
  }

  /** The sections never cut into a trimmed headline and leave the text trimmed. */
  lemma ExceptionSectionsKeepHeadline(settings: Settings, headline: string, e: Exception, request: Option<Request>, host: Host)
    requires Trimmed(headline) && |headline| <= MaxMessageLength
    ensures var r := ExceptionSections(settings, headline, e, request, host);
      Trimmed(r) && |headline| <= |r| && r[..|headline|] == headline
  {
    var m := AppendMetadata(settings, headline, Raised(e), request, host);
    var b := AppendExceptionBacktrace(settings, m, e);
    var c := AppendExceptionCause(settings, b, e);
    PrefixOfPrefix(headline, m, b);
    PrefixOfPrefix(headline, b, c);
  }

  /** A prefix of a prefix is a prefix. */
  lemma PrefixOfPrefix(a: string, b: string, c: string)
    requires |a| <= |b| && b[..|a|] == a
    requires |b| <= |c| && c[..|b|] == b
    ensures |a| <= |c| && c[..|a|] == a
  {
    assert c[..|a|] == c[..|b|][..|a|];
  }

  /** The exception branch of call before its final truncation: the headline cut to the
      budget, then the sections.  It is already within the budget, trimmed, and opens
      with the cut headline. */
  function ExceptionText(settings: Settings, severity: string, progname: Option<string>, e: Exception,
                         request: Option<Request>, host: Host): (r: string)
    ensures |r| <= MaxMessageLength && Trimmed(r)
    ensures var h := Truncate(ExceptionHeadline(settings, severity, progname, e), MaxMessageLength);
      |h| <= |r| && r[..|h|] == h
  {
    var raw := ExceptionHeadline(settings, severity, progname, e);
    ExceptionHeadlineShape(settings, severity, progname, e);
    assert !Blank(raw) by { assert !IsSpace(raw[0]); }
    var headline := Truncate(raw, MaxMessageLength);
    ExceptionSectionsKeepHeadline(settings, headline, e, request, host);
    ExceptionSections(settings, headline, e, request, host)
  }

  /** call, without the icon: the text of the rendered message. */
  function Render(settings: Settings, severity: string, progname: Option<string>, message: LogMessage,
                  request: Option<Request>, host: Host): (r: string)
    ensures |r| <= MaxMessageLength
    ensures message.Raised? ==> (Trimmed(r) &&
      var h := Truncate(ExceptionHeadline(settings, severity, progname, message.error), MaxMessageLength);
      |h| <= |r| && r[..|h|] == h)
  {
    match message
    case Plain(t) =>
      var headline := PlainHeadline(settings, severity, progname, t);
      Truncate(AppendMetadata(settings, headline, message, request, host), MaxMessageLength)
    case Raised(e) =>
      Truncate(ExceptionText(settings, severity, progname, e, request, host), MaxMessageLength)
  }

  /** A text message whose headline fits comes out headline first; one whose headline
      does not fit comes out exactly MaxMessageLength long, the headline cut and ended
      with the ellipsis. */
  lemma RenderPlain(settings: Settings, severity: string, progname: Option<string>, t: string,
                    request: Option<Request>, host: Host)
    ensures var h := PlainHeadline(settings, severity, progname, t);
      var r := Render(settings, severity, progname, Plain(t), request, host);
      && (|h| <= MaxMessageLength ==> |h| <= |r| && r[..|h|] == h)
      && (|h| > MaxMessageLength ==> |r| == MaxMessageLength && r == h[..MaxMessageLength - 3] + Ellipsis)
      && Trimmed(r)
  {
    var h := PlainHeadline(settings, severity, progname, t);
    PlainHeadlineShape(settings, severity, progname, t);
    var withMetadata := AppendMetadata(settings, h, Plain(t), request, host);
    if |h| <= MaxMessageLength {
      assert Strip(withMetadata) == withMetadata;
    } else {
      assert withMetadata == h;
    }
  }

  // ---------------------------------------------------------------------------
  // Severities and icons

  /** The first of the candidates whose name is exactly the given text. */
  function SeverityNamed(name: string, candidates: seq<Severity>): (r: Option<Severity>)
    ensures r.Some? ==> SeverityName(r.value) == name && r.value in candidates
    ensures r.None? ==> forall i :: 0 <= i < |candidates| ==> SeverityName(candidates[i]) != name
  {
    if candidates == [] then None
    else if SeverityName(candidates[0]) == name then Some(candidates[0])
    else SeverityNamed(name, candidates[1..])
  }

  /** parse_severity: the name stripped and upper-cased, when it is one of the six;
      an error naming the value otherwise. */
  function ParseSeverity(value: string): (r: Result<Severity, FormatterError>)
    ensures r.Success? ==> SeverityName(r.value) == UpCase(Strip(value))
    ensures r.Failure? ==>
      r.error == InvalidSeverity(value) && forall s: Severity :: SeverityName(s) != UpCase(Strip(value))
  {
    match SeverityOf(UpCase(Strip(value)))
    case Some(s) => Success(s)
    case None => Failure(InvalidSeverity(value))
  }

  /** The severity with exactly this name, if any. */
  function SeverityOf(name: string): (r: Option<Severity>)
    ensures r.Some? ==> SeverityName(r.value) == name
    ensures r.None? ==> forall s: Severity :: SeverityName(s) != name
  {
    var r := SeverityNamed(name, AllSeverities);
    assert r.None? ==> forall s: Severity :: SeverityName(s) != name by {
      if r.None? {
        forall s: Severity ensures SeverityName(s) != name {
          assert AllSeverities[SeverityIndex(s)] == s;
        }
      }
    }
    r
  }

  /** Severity names are upper-case words. */
  lemma SeverityNameCanonical(s: Severity)
    ensures Trimmed(SeverityName(s)) && UpCase(SeverityName(s)) == SeverityName(s)
  {
    var n := SeverityName(s);
    assert forall i :: 0 <= i < |n| ==> 'A' <= n[i] <= 'Z';
  }

  /** No two severities share a name (their first letters already differ). */
  lemma SeverityNameInjective(a: Severity, b: Severity)
    requires SeverityName(a) == SeverityName(b)
    ensures a == b
  {
    assert SeverityName(a)[0] == SeverityName(b)[0];
  }

  /** A text that strips and upper-cases to a severity's name parses to that severity. */
  lemma ParseSeverityOfName(value: string, s: Severity)
    requires UpCase(Strip(value)) == SeverityName(s)
    ensures ParseSeverity(value) == Success(s)
  {
    var r := SeverityOf(SeverityName(s));
    SeverityNameInjective(r.value, s);
  }

  /** Every severity is accepted under its own name, whatever the case and the
      surrounding whitespace. */
  lemma ParseSeverityNames(s: Severity, padding: string)
    requires Blank(padding)
    ensures ParseSeverity(SeverityName(s)) == Success(s)
    ensures ParseSeverity(DownCase(SeverityName(s))) == Success(s)
    ensures ParseSeverity(padding + SeverityName(s) + padding) == Success(s)
  {
    var name := SeverityName(s);
    SeverityNameCanonical(s);
    ParseSeverityOfName(name, s);
    StripDownCase(name);
    UpCaseDownCase(name);
    ParseSeverityOfName(DownCase(name), s);
    StripPadded(padding, name);
    ParseSeverityOfName(padding + name + padding, s);
  }

  /** Parsing is blind to case: a lower-cased name parses to the same severity. */
  lemma ParseSeverityIgnoresCase(value: string)
    ensures ParseSeverity(DownCase(value)).Success? <==> ParseSeverity(value).Success?
    ensures ParseSeverity(value).Success? ==> ParseSeverity(DownCase(value)) == ParseSeverity(value)
  {
    StripDownCase(value);
    UpCaseDownCase(Strip(value));
  }

  /** Strip removes whitespace padding on both sides of a trimmed string. */
  lemma StripPadded(padding: string, s: string)
    requires Blank(padding) && Trimmed(s)
    ensures Strip(padding + s + padding) == s
  {
    var t := padding + s + padding;
    var l := LStrip(t);
    assert !IsSpace(t[|padding|]);
    assert forall i :: 0 <= i < |padding| ==> IsSpace(t[i]);
    assert |t| - |l| == |padding|;
    assert l == s + padding;
    var r := RStrip(l);
    assert !IsSpace(l[|s| - 1]);
    assert forall i :: |s| <= i < |l| ==> IsSpace(l[i]);
    assert |r| == |s|;
    assert r == l[..|s|] == s;
  }

  /** icon_emoji= and icon_emojis=: to_s, strip, presence. */
  function IconValue(value: Option<string>): Option<string> {
    Presence(Strip(ToS(value)))
  }

  /** The formatter's icon normalisation agrees with Message's, so a message keeps the
      icon the formatter looked up. */
  lemma IconValueIsNormalized(value: Option<string>)
    ensures IconValue(value) == NormalizeIcon(value)
    ensures IconValue(value).None? || Trimmed(IconValue(value).value)
    ensures NormalizeIcon(IconValue(value)) == IconValue(value)
  {
    var v := IconValue(value);
    if v.Some? {
      assert !Blank(v.value) by { assert !IsSpace(v.value[0]); }
    }
  }

  /** An icon as the setters store it: nil or a trimmed name. */
  predicate NormalIcon(icon: Option<string>) {
    icon.None? || Trimmed(icon.value)
  }

  /** Every value the setters store is a normal icon. */
  lemma IconValueNormal(value: Option<string>)
    ensures NormalIcon(IconValue(value))
  {
  }

  /** An icon table: one entry per severity, each a normal icon. */
  ghost predicate ValidIcons(icons: map<Severity, Option<string>>) {
    && (forall s: Severity :: s in icons)
    && (forall s :: s in icons ==> NormalIcon(icons[s]))
  }

  /** Setting one severity to a normal icon keeps the table valid. */
  lemma ValidIconsUpdate(icons: map<Severity, Option<string>>, s: Severity, icon: Option<string>)
    requires NormalIcon(icon)
    ensures ValidIcons(icons) ==> ValidIcons(icons[s := icon])
  {
    var m := icons[s := icon];
    if ValidIcons(icons) {
      forall k | k in m ensures NormalIcon(m[k]) {
        if k != s {
          assert m[k] == icons[k];
        }
      }
    }
  }

  /** icon_emojis=: the pairs applied in order, each to the severity its key names; the
      first key that names no severity stops the update with an error, keeping what the
      earlier pairs set. */
  function ApplyIconEmojis(icons: map<Severity, Option<string>>, values: seq<(string, Option<string>)>)
    : (r: (map<Severity, Option<string>>, Option<FormatterError>))
    ensures ValidIcons(icons) ==> ValidIcons(r.0)
    decreases |values|
  {
    if values == [] then (icons, None)
    else
      match ParseSeverity(values[0].0)
      case Failure(err) => (icons, Some(err))
      case Success(s) =>
        IconValueNormal(values[0].1);
        ValidIconsUpdate(icons, s, IconValue(values[0].1));
        ApplyIconEmojis(icons[s := IconValue(values[0].1)], values[1..])
  }

  /** One step of the update, from the i-th pair on. */
  lemma ApplyIconEmojisStep(icons: map<Severity, Option<string>>, values: seq<(string, Option<string>)>, i: nat)
    requires i < |values|
    ensures ParseSeverity(values[i].0).Failure? ==>
      ApplyIconEmojis(icons, values[i..]) == (icons, Some(ParseSeverity(values[i].0).error))
    ensures ParseSeverity(values[i].0).Success? ==>
      ApplyIconEmojis(icons, values[i..])
        == ApplyIconEmojis(icons[ParseSeverity(values[i].0).value := IconValue(values[i].1)], values[i + 1..])
  {
    assert values[i..][0] == values[i] && values[i..][1..] == values[i + 1..];
  }

  /** The loop behind icon_emojis=: the pairs applied one by one, stopping at the first
      key that names no severity. */
  method UpdateIcons(icons: map<Severity, Option<string>>, values: seq<(string, Option<string>)>)
    returns (r: map<Severity, Option<string>>, err: Option<FormatterError>)
    ensures (r, err) == ApplyIconEmojis(icons, values)
  {
    r := icons;
    err := None;
    var i := 0;
    while i < |values|
      invariant 0 <= i <= |values|
      invariant ApplyIconEmojis(r, values[i..]) == ApplyIconEmojis(icons, values)
    {
      ApplyIconEmojisStep(r, values, i);
      var severity := ParseSeverity(values[i].0);
      if severity.Failure? {
        err := Some(severity.error);
        return;
      }
      r := r[severity.value := IconValue(values[i].1)];
      i := i + 1;
    }
    assert values[i..] == [];
  }

  /** The default table is a valid one. */
  lemma DefaultIconsValid()
    ensures ValidIcons(DefaultIconEmojis)
  {
    forall s: Severity ensures s in DefaultIconEmojis && Trimmed(DefaultIconEmojis[s].value) {
      assert s in DefaultIconEmojis by {
        match s
        case Debug => case Info => case Warn => case Error => case Fatal => case Unknown =>
      }
      var icon := DefaultIconEmojis[s].value;
      assert icon[0] == ':' && icon[|icon| - 1] == ':' by {
        match s
        case Debug => case Info => case Warn => case Error => case Fatal => case Unknown =>
      }
    }
  }

  /** The update succeeds exactly when every key names a severity. */
  lemma {:induction false} ApplyIconEmojisFails(icons: map<Severity, Option<string>>, values: seq<(string, Option<string>)>)
    ensures ApplyIconEmojis(icons, values).1.None? <==>
      forall i :: 0 <= i < |values| ==> ParseSeverity(values[i].0).Success?
    decreases |values|
  {
    if values != [] && ParseSeverity(values[0].0).Success? {
      var s := ParseSeverity(values[0].0).value;
      var rest := values[1..];
      ApplyIconEmojisFails(icons[s := IconValue(values[0].1)], rest);
      forall i | 0 <= i < |rest| ensures rest[i] == values[i + 1] { }
    }
  }

  /** The error names the first key that names no severity. */
  lemma {:induction false} ApplyIconEmojisFirstError(icons: map<Severity, Option<string>>,
                                                     values: seq<(string, Option<string>)>, i: nat)
    requires i < |values| && ParseSeverity(values[i].0).Failure?
    requires forall j :: 0 <= j < i ==> ParseSeverity(values[j].0).Success?
    ensures ApplyIconEmojis(icons, values).1 == Some(InvalidSeverity(values[i].0))
    decreases i
  {
    if i > 0 {
      var s := ParseSeverity(values[0].0).value;
      var rest := values[1..];
      assert forall j :: 0 <= j < i - 1 ==> rest[j] == values[j + 1];
      ApplyIconEmojisFirstError(icons[s := IconValue(values[0].1)], rest, i - 1);
    }
  }

  /** The last of the pairs wins: adding a pair at the end, after pairs that all parsed,
      sets that pair's severity to its icon on top of what the others did. */
  lemma {:induction false} ApplyIconEmojisSnoc(icons: map<Severity, Option<string>>,
                                               values: seq<(string, Option<string>)>,
                                               name: string, icon: Option<string>)
    requires ApplyIconEmojis(icons, values).1.None?
    requires ParseSeverity(name).Success?
    ensures ApplyIconEmojis(icons, values + [(name, icon)])
      == (ApplyIconEmojis(icons, values).0[ParseSeverity(name).value := IconValue(icon)], None)
    decreases |values|
  {
    if values == [] {
      assert [(name, icon)][1..] == [];
    } else {
      var s := ParseSeverity(values[0].0).value;
      assert (values + [(name, icon)])[1..] == values[1..] + [(name, icon)];
      ApplyIconEmojisSnoc(icons[s := IconValue(values[0].1)], values[1..], name, icon);
    }
  }

  /** A severity that none of the pairs names keeps its icon. */
  lemma {:induction false} ApplyIconEmojisUntouched(icons: map<Severity, Option<string>>,
                                                    values: seq<(string, Option<string>)>, severity: Severity)
    requires severity in icons
    requires forall i :: 0 <= i < |values| ==> ParseSeverity(values[i].0) != Success(severity)
    ensures severity in ApplyIconEmojis(icons, values).0
    ensures ApplyIconEmojis(icons, values).0[severity] == icons[severity]
    decreases |values|
  {
    if values != [] {
      match ParseSeverity(values[0].0)
      case Failure(_) =>
      case Success(s) =>
        var rest := values[1..];
        assert forall i :: 0 <= i < |rest| ==> rest[i] == values[i + 1];
        ApplyIconEmojisUntouched(icons[s := IconValue(values[0].1)], rest, severity);
    }
  }

  /** max_backtrace_lines=: an integer of at least -1; nil, a value that is not an
      integer, and anything below -1 are refused.  -1 means every line and 0 none. */
  function ParseMaxBacktraceLines(value: Option<int>): (r: Result<int, FormatterError>)
    ensures r.Success? <==> value.Some? && value.value >= -1
    ensures r.Success? ==> r.value == value.value
    ensures r.Failure? ==> r.error == InvalidMaxBacktraceLines(value)
  {
    if value.None? || value.value < -1 then Failure(InvalidMaxBacktraceLines(value)) else Success(value.value)
  }

  /** The options Formatter.new takes; an absent key is None, and a key given as nil is
      Some(None) where that makes a difference. */
  datatype Options = Options(
    disableDefaultMetadata: Option<bool>,
    extraMetadata: Option<Metadata>,
    maxBacktraceLines: Option<Option<int>>,
    iconEmojis: Option<seq<(string, Option<string>)>>,
    iconEmoji: Option<Option<string>>)

  /** Every severity showing the same icon. */
  function UniformIcons(icon: Option<string>): (icons: map<Severity, Option<string>>)
    ensures forall s: Severity :: s in icons && icons[s] == icon
  {
    AllSeveritiesComplete();
    map s | s in AllSeverities :: icon
  }

  class Formatter {
    var iconEmojis: map<Severity, Option<string>>
    var maxBacktraceLines: int
    var extraMetadata: Metadata
    var disableDefaultMetadata: bool
    /** The block given to new, applied to every stripped message; the identity without one. */
    const convert: string -> string

    /** The icon table has the six severities with normalised icons, and the backtrace
        limit is one the setter accepts. */
    ghost predicate Valid()
      reads this
    {
      ValidIcons(iconEmojis) && maxBacktraceLines >= -1
    }

    /** The configuration a render reads. */
    function CurrentSettings(): Settings
      reads this
    {
      Settings(disableDefaultMetadata, extraMetadata, maxBacktraceLines, convert)
    }

    /** The defaults new starts from, before it applies the options. */
    constructor Init(convert: string -> string)
      ensures Valid()
      ensures this.convert == convert
      ensures iconEmojis == DefaultIconEmojis && maxBacktraceLines == DefaultMaxBacktraceLines
      ensures extraMetadata == [] && !disableDefaultMetadata
    {
      this.convert := convert;
      iconEmojis := DefaultIconEmojis;
      maxBacktraceLines := DefaultMaxBacktraceLines;
      extraMetadata := [];
      disableDefaultMetadata := false;
      DefaultIconsValid();
    }

    /** disable_default_metadata=: on only for a present (true) value. */
    method SetDisableDefaultMetadata(value: Option<bool>)
      modifies this
      ensures disableDefaultMetadata <==> value == Some(true)
      ensures iconEmojis == old(iconEmojis) && maxBacktraceLines == old(maxBacktraceLines)
      ensures extraMetadata == old(extraMetadata)
    {
      disableDefaultMetadata := value == Some(true);
    }

    /** extra_metadata=: nil and the empty hash both leave no extra metadata. */
    method SetExtraMetadata(value: Option<Metadata>)
      modifies this
      ensures extraMetadata == (if value.Some? then value.value else [])
      ensures iconEmojis == old(iconEmojis) && maxBacktraceLines == old(maxBacktraceLines)
      ensures disableDefaultMetadata == old(disableDefaultMetadata)
    {
      extraMetadata := if value.Some? then value.value else [];
    }

    /** max_backtrace_lines=: the new limit, or an error and no change. */
    method SetMaxBacktraceLines(value: Option<int>) returns (err: Option<FormatterError>)
      requires Valid()
      modifies this
      ensures Valid()
      ensures err.Some? <==> ParseMaxBacktraceLines(value).Failure?
      ensures err.Some? ==> err.value == ParseMaxBacktraceLines(value).error && maxBacktraceLines == old(maxBacktraceLines)
      ensures err.None? ==> maxBacktraceLines == ParseMaxBacktraceLines(value).value
      ensures iconEmojis == old(iconEmojis) && extraMetadata == old(extraMetadata)
      ensures disableDefaultMetadata == old(disableDefaultMetadata)
    {
      match ParseMaxBacktraceLines(value)
      case Failure(e) => err := Some(e);
      case Success(n) => maxBacktraceLines := n; err := None;
    }

    /** icon_emoji(severity): the icon of a severity named in any case, or an error. */
    function IconEmoji(severity: string): (r: Result<Option<string>, FormatterError>)
      requires Valid()
      reads this
      ensures r.Success? <==> ParseSeverity(severity).Success?
      ensures r.Success? ==> r.value == iconEmojis[ParseSeverity(severity).value]
      ensures r.Success? && r.value.Some? ==> Trimmed(r.value.value)
    {
      match ParseSeverity(severity)
      case Failure(e) => Failure(e)
      case Success(s) => Success(iconEmojis[s])
    }

    /** icon_emoji=: every severity gets the same icon. */
    method SetIconEmoji(value: Option<string>)
      requires Valid()
      modifies this
      ensures Valid()
      ensures iconEmojis == UniformIcons(IconValue(value))
      ensures maxBacktraceLines == old(maxBacktraceLines) && extraMetadata == old(extraMetadata)
      ensures disableDefaultMetadata == old(disableDefaultMetadata)
    {
      IconValueNormal(value);
      SetAllIcons(IconValue(value));
    }

    /** The loop of icon_emoji=: one severity at a time, every key gets the icon. */
    method SetAllIcons(icon: Option<string>)
      requires Valid() && NormalIcon(icon)
      modifies this
      ensures Valid()
      ensures iconEmojis == UniformIcons(icon)
      ensures maxBacktraceLines == old(maxBacktraceLines) && extraMetadata == old(extraMetadata)
      ensures disableDefaultMetadata == old(disableDefaultMetadata)
    {
      for i := 0 to |AllSeverities|
        invariant ValidIcons(iconEmojis)
        invariant forall j :: 0 <= j < i ==> iconEmojis[AllSeverities[j]] == icon
        invariant maxBacktraceLines == old(maxBacktraceLines) && extraMetadata == old(extraMetadata)
        invariant disableDefaultMetadata == old(disableDefaultMetadata)
      {
        ValidIconsUpdate(iconEmojis, AllSeverities[i], icon);
        iconEmojis := iconEmojis[AllSeverities[i] := icon];
      }
      forall s: Severity ensures iconEmojis[s] == icon {
        var j := SeverityIndex(s);
      }
    }

    /** icon_emojis=: the pairs applied in order; an error stops the update part-way. */
    method SetIconEmojis(values: seq<(string, Option<string>)>) returns (err: Option<FormatterError>)
      requires Valid()
      modifies this
      ensures Valid()
      ensures (iconEmojis, err) == ApplyIconEmojis(old(iconEmojis), values)
      ensures maxBacktraceLines == old(maxBacktraceLines) && extraMetadata == old(extraMetadata)
      ensures disableDefaultMetadata == old(disableDefaultMetadata)
    {
      var icons;
      icons, err := UpdateIcons(iconEmojis, values);
      iconEmojis := icons;
    }

    /** call: the rendered text in a Message carrying the severity's icon; a severity that
        names none of the six is an error. */
    method Call(severity: string, progname: Option<string>, message: LogMessage,
                request: Option<Request>, host: Host) returns (r: Result<Message, FormatterError>)
      requires Valid()
      ensures r.Success? <==> ParseSeverity(severity).Success?
      ensures r.Failure? ==> r.error == InvalidSeverity(severity)
      ensures r.Success? ==> (fresh(r.value)
        && r.value.text == Render(CurrentSettings(), severity, progname, message, request, host)
        && r.value.iconEmoji == iconEmojis[ParseSeverity(severity).value])
    {
      var text := Render(CurrentSettings(), severity, progname, message, request, host);
      match IconEmoji(severity)
      case Failure(e) =>
        r := Failure(e);
      case Success(icon) =>
        var m := new Message(text, icon);
        r := Success(m);
    }
  }

  /** Formatter.new: the defaults, then disable_default_metadata, extra_metadata,
      max_backtrace_lines, icon_emojis and icon_emoji in that order; the first setter that
      raises makes new raise. */
  method NewFormatter(options: Options, convert: string -> string) returns (r: Result<Formatter, FormatterError>)
    ensures r.Failure? <==>
      || (options.maxBacktraceLines.Some? && ParseMaxBacktraceLines(options.maxBacktraceLines.value).Failure?)
      || (options.iconEmojis.Some? && ApplyIconEmojis(DefaultIconEmojis, options.iconEmojis.value).1.Some?)
    ensures r.Failure? && options.maxBacktraceLines.Some? && ParseMaxBacktraceLines(options.maxBacktraceLines.value).Failure? ==>
      r.error == ParseMaxBacktraceLines(options.maxBacktraceLines.value).error
    ensures r.Failure? && (options.maxBacktraceLines.None? || ParseMaxBacktraceLines(options.maxBacktraceLines.value).Success?) ==>
      options.iconEmojis.Some? && Some(r.error) == ApplyIconEmojis(DefaultIconEmojis, options.iconEmojis.value).1
    ensures r.Success? ==> var f := r.value;
      && fresh(f) && f.Valid() && f.convert == convert
      && (f.disableDefaultMetadata <==> options.disableDefaultMetadata == Some(true))
      && f.extraMetadata == (if options.extraMetadata.Some? then options.extraMetadata.value else [])
      && f.maxBacktraceLines ==
           (if options.maxBacktraceLines.Some? then options.maxBacktraceLines.value.value else DefaultMaxBacktraceLines)
      && f.iconEmojis ==
           if options.iconEmoji.Some? then UniformIcons(IconValue(options.iconEmoji.value))
           else if options.iconEmojis.Some? then ApplyIconEmojis(DefaultIconEmojis, options.iconEmojis.value).0
           else DefaultIconEmojis
  {
    var f := new Formatter.Init(convert);
    f.SetDisableDefaultMetadata(options.disableDefaultMetadata);
    f.SetExtraMetadata(options.extraMetadata);
    if options.maxBacktraceLines.Some? {
      var err := f.SetMaxBacktraceLines(options.maxBacktraceLines.value);
      if err.Some? {
        return Failure(err.value);
      }
    }
    if options.iconEmojis.Some? {
      var err := f.SetIconEmojis(options.iconEmojis.value);
      if err.Some? {
        return Failure(err.value);
      }
    }
    if options.iconEmoji.Some? {
      f.SetIconEmoji(options.iconEmoji.value);
    }
    r := Success(f);
  }
}
