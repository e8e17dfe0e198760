/** Note-track bodies as chart authors lay them out: one line per entry,
    a comma right after the notes of the measure it closes, and blank lines
    anywhere. One law reads any such body, so a chart written this way is
    read without unfolding the grammar character by character. */
module TjaLines {
  import opened Wrappers
  import opened TjaTypes
  import opened TjaLexer
  import opened TjaParser
  import opened TjaText
  import opened TjaLaws
  import opened TjaLayout

  /** One line of a track body. */
  datatype BodyLine =
    | BlankLine
    | CommandLine(c: TrackCommand)
    | NotesLine(ns: seq<Option<NoteType>>, closesMeasure: bool)
    | CommaLine

  predicate ValidLine(l: BodyLine) {
    match l
    case BlankLine => true
    case CommandLine(c) => IsInnerCommand(c)
    case NotesLine(ns, _) => ValidEntry(Notes(ns))
    case CommaLine => true
  }

  predicate ValidLines(lines: seq<BodyLine>) {
    forall l :: l in lines ==> ValidLine(l)
  }

  /** The text of line `l`, then the line break that ends it, then `more`. */
  function LineThen(l: BodyLine, more: string): string
  {
    match l
    case BlankLine => "\n" + more
    case CommandLine(c) => CommandText(c) + ("\n" + more)
    case NotesLine(ns, closes) =>
      if closes then NotesText(ns) + ("," + ("\n" + more)) else NotesText(ns) + ("\n" + more)
    case CommaLine => "," + ("\n" + more)
  }

  /** The entries a line holds, in the order they are written. */
  function LineEntries(l: BodyLine): seq<NoteTrackEntry>
  {
    match l
    case BlankLine => []
    case CommandLine(c) => [Command(c)]
    case NotesLine(ns, closes) => if closes then [Notes(ns), EndMeasure] else [Notes(ns)]
    case CommaLine => [EndMeasure]
  }

  /** The text of some body lines, each followed by its line break, then
      whatever comes after them. */
  function LinesText(lines: seq<BodyLine>, z: string): string
  {
    if lines == [] then z else LineThen(lines[0], LinesText(lines[1..], z))
  }

  /** The text of a track body: its lines, then `#END` and whatever comes
      after it. */
  function BodyText(lines: seq<BodyLine>, y: string): string
  {
    LinesText(lines, "#END" + y)
  }

  function BodyEntries(lines: seq<BodyLine>): seq<NoteTrackEntry>
  {
    if lines == [] then [] else LineEntries(lines[0]) + BodyEntries(lines[1..])
  }

  /** A body with one more line in front. */
  lemma LinesCons(l: BodyLine, ls: seq<BodyLine>, y: string)
    ensures BodyText([l] + ls, y) == LineThen(l, BodyText(ls, y))
  {
    assert ([l] + ls)[1..] == ls;
  }

  lemma EntriesCons(l: BodyLine, ls: seq<BodyLine>)
    ensures BodyEntries([l] + ls) == LineEntries(l) + BodyEntries(ls)
  {
    assert ([l] + ls)[1..] == ls;
  }

  lemma ValidLinesCons(l: BodyLine, ls: seq<BodyLine>)
    requires ValidLine(l) && ValidLines(ls)
    ensures ValidLines([l] + ls)
  {
  }

  /** What the entries leave over is blank space, then `t`. */
  predicate StopsBefore(p: Parsed<seq<NoteTrackEntry>>, t: string) {
    SkipWhile(IsWhitespace, p.rest) == t
  }

  /** What the entries leave over is blank space, then `#END` and `y`. */
  predicate StopsAtEnd(p: Parsed<seq<NoteTrackEntry>>, y: string) {
    StopsBefore(p, "#END" + y)
  }

  /** Blank space in front changes nothing about the entries read, and
      nothing about where they stop unless there are none. */
  lemma EntriesSkipBlank(w: string, s: string)
    requires AllWhitespace(w)
    ensures TrackEntries(w + s).value == TrackEntries(s).value
    ensures TrackEntries(s).value != [] ==> TrackEntries(w + s).rest == TrackEntries(s).rest
    ensures TrackEntries(s).value == [] ==> TrackEntries(w + s).rest == w + s && TrackEntries(s).rest == s
  {
    TrackEntrySkipsBlank(w, s);
    match TrackEntry(s)
    case None =>
      TrackEntriesStopStep(s);
      TrackEntriesStopStep(w + s);
    case Some(e) =>
      TrackEntriesStep(s, e.value, e.rest);
      TrackEntriesStep(w + s, e.value, e.rest);
  }

  /** A line break in front of a body changes neither its entries nor
      where they stop. */
  lemma LineBreakStep(z: string, t: string)
    ensures TrackEntries("\n" + z).value == TrackEntries(z).value
    ensures StopsBefore(TrackEntries("\n" + z), t) <==> StopsBefore(TrackEntries(z), t)
  {
    EntriesSkipBlank("\n", z);
    SkipWhitespaceNewline(z);
  }

  lemma CommandLineStep(c: TrackCommand, x: string, t: string)
    requires IsInnerCommand(c)
    requires StopsBefore(TrackEntries(x), t)
    ensures TrackEntries(CommandText(c) + ("\n" + x)).value == [Command(c)] + TrackEntries(x).value
    ensures StopsBefore(TrackEntries(CommandText(c) + ("\n" + x)), t)
  {
    var v := CommandText(c) + ("\n" + x);
    var p := TrackEntries(x);
    assert TrackEntries(v) == Parsed(p.rest, [Command(c)] + p.value) by {
      EntriesCommandLine([], c, "\n", x, p.rest, p.value);
      NothingInFront(v);
    }
  }

  lemma NotesLineStep(ns: seq<Option<NoteType>>, x: string, t: string)
    requires ValidEntry(Notes(ns))
    requires StopsBefore(TrackEntries(x), t)
    ensures TrackEntries(NotesText(ns) + ("\n" + x)).value == [Notes(ns)] + TrackEntries(x).value
    ensures StopsBefore(TrackEntries(NotesText(ns) + ("\n" + x)), t)
  {
    var v := NotesText(ns) + ("\n" + x);
    LineBreakStep(x, t);
    EntriesNotes([], ns, "\n" + x, TrackEntries("\n" + x).rest, TrackEntries("\n" + x).value);
    assert [] + v == v;
  }

  lemma CommaLineStep(x: string, t: string)
    requires StopsBefore(TrackEntries(x), t)
    ensures TrackEntries("," + ("\n" + x)).value == [EndMeasure] + TrackEntries(x).value
    ensures StopsBefore(TrackEntries("," + ("\n" + x)), t)
  {
    var v := "," + ("\n" + x);
    LineBreakStep(x, t);
    EntriesComma([], "\n" + x, TrackEntries("\n" + x).rest, TrackEntries("\n" + x).value);
    assert [] + v == v;
  }

  lemma ClosedNotesLineStep(ns: seq<Option<NoteType>>, x: string, t: string)
    requires ValidEntry(Notes(ns))
    requires StopsBefore(TrackEntries(x), t)
    ensures TrackEntries(NotesText(ns) + ("," + ("\n" + x))).value
            == [Notes(ns), EndMeasure] + TrackEntries(x).value
    ensures StopsBefore(TrackEntries(NotesText(ns) + ("," + ("\n" + x))), t)
  {
    TwoInFront(Notes(ns), EndMeasure, TrackEntries(x).value);
    var v := NotesText(ns) + ("," + ("\n" + x));
    CommaLineStep(x, t);
    var u := "," + ("\n" + x);
    EntriesNotes([], ns, u, TrackEntries(u).rest, TrackEntries(u).value);
    assert [] + v == v;
  }

  lemma NothingInFront<T>(v: seq<T>)
    ensures [] + v == v
  {
  }

  lemma NothingAfter<T>(v: seq<T>)
    ensures v + [] == v
  {
  }

  lemma EntriesRegroup(a: seq<NoteTrackEntry>, b: seq<NoteTrackEntry>, c: seq<NoteTrackEntry>)
    ensures a + (b + c) == (a + b) + c
  {
  }

  lemma TwoInFront(a: NoteTrackEntry, b: NoteTrackEntry, v: seq<NoteTrackEntry>)
    ensures [a] + ([b] + v) == [a, b] + v
  {
  }

  lemma BlankLineStep(x: string, t: string)
    requires StopsBefore(TrackEntries(x), t)
    ensures TrackEntries(LineThen(BlankLine, x)).value == LineEntries(BlankLine) + TrackEntries(x).value
    ensures StopsBefore(TrackEntries(LineThen(BlankLine, x)), t)
  {
    LineBreakStep(x, t);
    NothingInFront(TrackEntries(x).value);
  }

  /** Any line in front of a body whose entries stop before `t`. */
  lemma LineStep(l: BodyLine, x: string, t: string)
    requires ValidLine(l)
    requires StopsBefore(TrackEntries(x), t)
    ensures TrackEntries(LineThen(l, x)).value == LineEntries(l) + TrackEntries(x).value
    ensures StopsBefore(TrackEntries(LineThen(l, x)), t)
  {
    match l
    case BlankLine => BlankLineStep(x, t);
    case CommandLine(c) => CommandLineStep(c, x, t);
    case NotesLine(ns, closes) =>
      if closes { ClosedNotesLineStep(ns, x, t); } else { NotesLineStep(ns, x, t); }
    case CommaLine => CommaLineStep(x, t);
  }

  /** Reading lines laid out one entry per line, in front of text whose
      entries stop before `t`: the entries of the lines come first, in
      order, and the reading still stops before `t`. */
  lemma {:induction false} LinesEntriesOf(lines: seq<BodyLine>, z: string, t: string)
    requires ValidLines(lines)
    requires StopsBefore(TrackEntries(z), t)
    ensures TrackEntries(LinesText(lines, z)).value == BodyEntries(lines) + TrackEntries(z).value
    ensures StopsBefore(TrackEntries(LinesText(lines, z)), t)
    decreases lines
  {
    if lines == [] {
      NothingInFront(TrackEntries(z).value);
    } else {
      var ls := lines[1..];
      assert ValidLines(ls) by {
        forall l | l in ls ensures ValidLine(l) { assert l in lines; }
      }
      LinesEntriesOf(ls, z, t);
      LinesEntriesStep(lines, z, t);
    }
  }

  /** One more line in front of lines read as `LinesEntriesOf` says. */
  lemma LinesEntriesStep(lines: seq<BodyLine>, z: string, t: string)
    requires lines != [] && ValidLine(lines[0])
    requires TrackEntries(LinesText(lines[1..], z)).value == BodyEntries(lines[1..]) + TrackEntries(z).value
    requires StopsBefore(TrackEntries(LinesText(lines[1..], z)), t)
    ensures TrackEntries(LinesText(lines, z)).value == BodyEntries(lines) + TrackEntries(z).value
    ensures StopsBefore(TrackEntries(LinesText(lines, z)), t)
  {
    var x := LinesText(lines[1..], z);
    var e := LineEntries(lines[0]);
    var v := TrackEntries(z).value;
    assert LinesText(lines, z) == LineThen(lines[0], x);
    assert BodyEntries(lines) == e + BodyEntries(lines[1..]);
    LineStep(lines[0], x, t);
    EntriesRegroup(e, BodyEntries(lines[1..]), v);
  }

  /** Reading a body laid out line by line gives the entries of its lines,
      in order, and stops at the blank space before `#END`. */
  lemma BodyEntriesOf(lines: seq<BodyLine>, y: string)
    requires ValidLines(lines)
    ensures TrackEntries(BodyText(lines, y)).value == BodyEntries(lines)
    ensures StopsAtEnd(TrackEntries(BodyText(lines, y)), y)
  {
    EntriesAtEnd([], y);
    assert [] + ("#END" + y) == "#END" + y;
    SkipNone(IsWhitespace, "#END" + y);
    LinesEntriesOf(lines, "#END" + y, "#END" + y);
    NothingAfter(BodyEntries(lines));
  }

  /** A note track whose body is laid out line by line: the start command,
      then the entries of its lines. */
  lemma {:induction false} TrackOfLines(p: Option<Player>, lines: seq<BodyLine>, eol: string, tail: string)
    requires ValidLines(lines) && EndsLine(eol, tail)
    ensures NoteTrackBlock("#START" + (PlayerText(p) + ("\n" + BodyText(lines, eol + tail))))
            == Some(Parsed(tail, [Command(Start(p))] + BodyEntries(lines)))
  {
    var body := BodyText(lines, eol + tail);
    var s := "#START" + (PlayerText(p) + ("\n" + body));
    BodyEntriesOf(lines, eol + tail);
    StartCommandOf([], p, "\n", body);
    assert [] + s == s;
    EndCommandStep(TrackEntries(body).rest, eol + tail);
    EndsLineOf(eol, tail);
    NoteTrackBlockStep(s, Start(p), body, tail);
  }

  /** An inner command is never `#END`. */
  lemma InnerCommandIsNoEnd(c: TrackCommand, x: string)
    requires IsInnerCommand(c)
    ensures !("#END" <= CommandText(c) + x)
  {
    var t := CommandText(c) + x;
    match c
    case GogoStart => assert t[1] == 'G';
    case GogoEnd => assert t[1] == 'G';
    case Measure(_, _) => assert t[1] == 'M';
  }

  /** Blank lines, then an inner command with something else on its line:
      no entry is read, and the reading stops before that command. */
  lemma EntriesStuckAtArgument(w: string, c: TrackCommand, arg: string)
    requires AllWhitespace(w) && IsInnerCommand(c)
    requires LineEndOrEof(arg).None? && (c.Measure? ==> !IsDigit(arg[0]))
    ensures TrackEntries(w + (CommandText(c) + arg)) == Parsed(w + (CommandText(c) + arg), [])
    ensures StopsBefore(TrackEntries(w + (CommandText(c) + arg)), CommandText(c) + arg)
  {
    var t := CommandText(c) + arg;
    var u := w + t;
    SkipBlankLines(w, t);
    InnerTrackCommandRejectsArgument(c, arg);
    TrackEntryNoneStep(u, t);
    TrackEntriesStopStep(u);
  }

  /** A track in which, after any well-formed lines and blank space, an
      inner command has something else on its line is rejected as a whole:
      the entries stop before that command, and it is no `#END`. */
  lemma TrackRejectsArgument(p: Option<Player>, lines: seq<BodyLine>, w: string, c: TrackCommand, arg: string)
    requires ValidLines(lines) && AllWhitespace(w) && IsInnerCommand(c)
    requires LineEndOrEof(arg).None? && (c.Measure? ==> !IsDigit(arg[0]))
    ensures NoteTrackBlock("#START" + (PlayerText(p) + ("\n" + LinesText(lines, w + (CommandText(c) + arg))))).None?
  {
    var t := CommandText(c) + arg;
    var body := LinesText(lines, w + t);
    var s := "#START" + (PlayerText(p) + ("\n" + body));
    EntriesStuckAtArgument(w, c, arg);
    LinesEntriesOf(lines, w + t, t);
    InnerCommandIsNoEnd(c, arg);
    EndCommandNeedsKeyword(TrackEntries(body).rest);
    NothingInFront(s);
    StartCommandOf([], p, "\n", body);
  }

  /** A track whose `#END` has something else on its line is rejected as a
      whole, whatever well-formed lines come before it. */
  lemma TrackRejectsTrailingEnd(p: Option<Player>, lines: seq<BodyLine>, x: string)
    requires ValidLines(lines) && LineEndOrEof(x).None?
    ensures NoteTrackBlock("#START" + (PlayerText(p) + ("\n" + BodyText(lines, x)))).None?
  {
    var body := BodyText(lines, x);
    var s := "#START" + (PlayerText(p) + ("\n" + body));
    BodyEntriesOf(lines, x);
    EndCommandStep(TrackEntries(body).rest, x);
    NothingInFront(s);
    StartCommandOf([], p, "\n", body);
  }
}
