/** General laws of the chart grammar: what each combinator accepts, what it
    rejects, and that parsing the canonical text of a track or of a whole
    file gives back exactly the values written.

    Each combinator has a "step" lemma stating how its result is assembled
    from the results of the pieces it calls; the laws about concrete text
    establish the pieces and then take that step. */
module TjaLaws {
  import opened Wrappers
  import opened TjaTypes
  import opened TjaLexer
  import opened TjaParser
  import opened TjaText

  predicate AllWhitespace(w: string) {
    forall i :: 0 <= i < |w| ==> IsWhitespace(w[i])
  }

  /** Either a line ending, or nothing at all at the end of the input. */
  predicate EndsLine(eol: string, tail: string) {
    IsLineEnd(eol) || (eol == [] && tail == [])
  }

  lemma EndsLineOf(eol: string, tail: string)
    requires EndsLine(eol, tail)
    ensures LineEndOrEof(eol + tail) == Some(tail)
    ensures eol + tail == [] || (eol + tail)[0] == '\n' || (eol + tail)[0] == '\r'
  {
    if IsLineEnd(eol) { LineEndOf(eol, tail); }
  }

  /** Leading blank lines are skipped up to the first visible character. */
  lemma SkipBlankLines(w: string, s: string)
    requires AllWhitespace(w)
    requires |s| > 0 && !IsWhitespace(s[0])
    ensures SkipWhile(IsWhitespace, w + s) == s
  {
    SpanOfConcat(IsWhitespace, w, s);
  }

  // ---------------------------------------------------------------- metadata

  /** The tag of `TAG:rest` is `TAG`, and `:rest` is left over. */
  lemma MetadataTagnameOf(tag: string, tail: string)
    requires ValidTag(tag)
    ensures MetadataTagname(tag + (":" + tail)) == Some(Parsed(":" + tail, tag))
  {
    SpanOfConcat(IsTagChar, tag, ":" + tail);
    assert (tag + (":" + tail))[..|tag|] == tag;
  }

  /** A value after blanks, up to a line ending or the end of the input. */
  lemma MetadataValueOf(blanks: string, value: string, eol: string, tail: string)
    requires ValidValue(value) && EndsLine(eol, tail)
    requires forall i :: 0 <= i < |blanks| ==> IsSpace(blanks[i])
    ensures MetadataValue(blanks + (value + (eol + tail))) == Some(Parsed(tail, value))
  {
    var v := value + (eol + tail);
    assert SkipWhile(IsSpace, blanks + v) == v by {
      EndsLineOf(eol, tail);
      assert v == [] || !IsSpace(v[0]) by {
        if value == [] { assert v == eol + tail; }
      }
      SpanOfConcat(IsSpace, blanks, v);
    }
    assert Span(IsLineChar, v) == |value| by {
      EndsLineOf(eol, tail);
      SpanOfConcat(IsLineChar, value, eol + tail);
    }
    assert v[..|value|] == value && v[|value|..] == eol + tail;
    assert LineEndOrEof(eol + tail) == Some(tail) by {
      EndsLineOf(eol, tail);
    }
  }

  lemma MetadataPairStep(s: string, tag: string, afterTag: string, value: string, tail: string)
    requires MetadataTagname(s) == Some(Parsed(afterTag, tag))
    requires MetadataValue(afterTag[1..]) == Some(Parsed(tail, value))
    ensures MetadataPair(s) == Some(Parsed(tail, (tag, value)))
  {
  }

  /** `TAG:` then blanks, the value and a line ending (or the end of the
      input) gives the pair `(TAG, value)` and consumes the line ending. */
  lemma MetadataPairOf(tag: string, blanks: string, value: string, eol: string, tail: string)
    requires ValidTag(tag) && ValidValue(value) && EndsLine(eol, tail)
    requires forall i :: 0 <= i < |blanks| ==> IsSpace(blanks[i])
    ensures MetadataPair(tag + (":" + (blanks + (value + (eol + tail))))) == Some(Parsed(tail, (tag, value)))
  {
    var afterColon := blanks + (value + (eol + tail));
    MetadataTagnameOf(tag, afterColon);
    MetadataValueOf(blanks, value, eol, tail);
    assert (":" + afterColon)[1..] == afterColon;
    MetadataPairStep(tag + (":" + afterColon), tag, ":" + afterColon, value, tail);
  }

  /** A metadata line with no blanks after the colon. */
  lemma MetadataLineOf(tag: string, value: string, eol: string, tail: string)
    requires ValidTag(tag) && ValidValue(value) && EndsLine(eol, tail)
    ensures MetadataPair(tag + (":" + (value + (eol + tail)))) == Some(Parsed(tail, (tag, value)))
  {
    assert value + (eol + tail) == [] + (value + (eol + tail));
    MetadataPairOf(tag, [], value, eol, tail);
  }

  // ------------------------------------------------------- #START and #END

  lemma PlayerDesignatorOf(p: Option<Player>, x: string)
    requires p.None? ==> !(" P1" <= x) && !(" P2" <= x)
    ensures PlayerDesignator(PlayerText(p) + x) == Parsed(x, p)
  {
    var s := PlayerText(p) + x;
    if p == Some(Player2) {
      assert s[2] == '2';
    }
  }

  lemma StartCommandStep(s: string, after: string, p: Option<Player>, x: string)
    requires SkipWhile(IsWhitespace, s) == "#START" + after
    requires PlayerDesignator(after) == Parsed(x, p)
    ensures StartCommand(s) == if LineEndOrEof(x).None? then None
                               else Some(Parsed(LineEndOrEof(x).value, Start(p)))
  {
    KeywordOf("#START", after);
  }

  /** `#START`, with an optional player, alone on its line, after any blank
      lines. */
  lemma StartCommandOf(w: string, p: Option<Player>, eol: string, tail: string)
    requires AllWhitespace(w) && EndsLine(eol, tail)
    ensures StartCommand(w + ("#START" + (PlayerText(p) + (eol + tail)))) == Some(Parsed(tail, Start(p)))
  {
    var after := PlayerText(p) + (eol + tail);
    SkipBlankLines(w, "#START" + after);
    EndsLineOf(eol, tail);
    PlayerDesignatorOf(p, eol + tail);
    StartCommandStep(w + ("#START" + after), after, p, eol + tail);
  }

  /** `#START` followed by anything but a line ending, or by a player other
      than ` P1` and ` P2`, is not a start command. */
  lemma StartCommandRejectsTrailing(w: string, p: Option<Player>, x: string)
    requires AllWhitespace(w)
    requires LineEndOrEof(x).None?
    requires p.None? ==> !(" P1" <= x) && !(" P2" <= x)
    ensures StartCommand(w + ("#START" + (PlayerText(p) + x))) == None
  {
    var after := PlayerText(p) + x;
    SkipBlankLines(w, "#START" + after);
    PlayerDesignatorOf(p, x);
    StartCommandStep(w + ("#START" + after), after, p, x);
  }

  /** Nothing but `#START`, after blank lines, opens a track. */
  lemma StartCommandNeedsKeyword(s: string)
    requires !("#START" <= SkipWhile(IsWhitespace, s))
    ensures StartCommand(s).None?
  {
  }

  /** Nothing but `#END`, after blank lines, closes a track. */
  lemma EndCommandNeedsKeyword(s: string)
    requires !("#END" <= SkipWhile(IsWhitespace, s))
    ensures EndCommand(s).None?
  {
  }

  lemma EndCommandStep(s: string, x: string)
    requires SkipWhile(IsWhitespace, s) == "#END" + x
    ensures EndCommand(s) == if LineEndOrEof(x).None? then None
                             else Some(Parsed(LineEndOrEof(x).value, End))
  {
    KeywordOf("#END", x);
  }

  /** `#END` alone on its line, after any blank lines. */
  lemma EndCommandOf(w: string, eol: string, tail: string)
    requires AllWhitespace(w) && EndsLine(eol, tail)
    ensures EndCommand(w + ("#END" + (eol + tail))) == Some(Parsed(tail, End))
  {
    SkipBlankLines(w, "#END" + (eol + tail));
    EndsLineOf(eol, tail);
    EndCommandStep(w + ("#END" + (eol + tail)), eol + tail);
  }

  /** `#END` takes no argument. */
  lemma EndCommandRejectsTrailing(w: string, x: string)
    requires AllWhitespace(w)
    requires LineEndOrEof(x).None?
    ensures EndCommand(w + ("#END" + x)) == None
  {
    SkipBlankLines(w, "#END" + x);
    EndCommandStep(w + ("#END" + x), x);
  }

  // --------------------------------------------------------- inner commands

  lemma MeasureArgumentsStep(s: string, afterA: string, afterSlash: string, x: string, a: nat, b: nat)
    requires a > 0 && b > 0
    requires Number(s) == Some(Parsed(afterA, a))
    requires Keyword("/", afterA) == Some(afterSlash)
    requires Number(afterSlash) == Some(Parsed(x, b))
    ensures MeasureArguments(s) == Some(Parsed(x, Measure(a, b)))
  {
  }

  /** `a/b` reads back as the two numbers. */
  lemma MeasureArgumentsOf(a: nat, b: nat, x: string)
    requires a > 0 && b > 0
    requires x == [] || !IsDigit(x[0])
    ensures MeasureArguments(NatText(a) + ("/" + (NatText(b) + x))) == Some(Parsed(x, Measure(a, b)))
  {
    var afterA := "/" + (NatText(b) + x);
    NumberOfNatText(a, afterA);
    KeywordOf("/", NatText(b) + x);
    NumberOfNatText(b, x);
    MeasureArgumentsStep(NatText(a) + afterA, afterA, NatText(b) + x, x, a, b);
  }

  lemma MeasureCommandStep(args: string, x: string, c: TrackCommand)
    requires MeasureArguments(args) == Some(Parsed(x, c))
    ensures MeasureCommand("#MEASURE " + args) == CommandLine(c, x)
  {
    KeywordOf("#MEASURE ", args);
  }

  lemma InnerGogoStartStep(s: string, x: string)
    requires Keyword("#GOGOSTART", s) == Some(x)
    ensures InnerTrackCommand(s) == CommandLine(GogoStart, x)
  {
  }

  lemma InnerGogoEndStep(s: string, x: string)
    requires !("#GOGOSTART" <= s)
    requires Keyword("#GOGOEND", s) == Some(x)
    ensures InnerTrackCommand(s) == CommandLine(GogoEnd, x)
  {
  }

  lemma InnerMeasureStep(s: string)
    requires !("#GOGOSTART" <= s) && !("#GOGOEND" <= s)
    ensures InnerTrackCommand(s) == MeasureCommand(s)
  {
  }

  lemma InnerNoneStep(s: string)
    requires !("#GOGOSTART" <= s) && !("#GOGOEND" <= s) && !("#MEASURE " <= s)
    ensures InnerTrackCommand(s).None?
  {
  }

  /** `inner_track_command` on the text of a command followed by `x`: the
      command is recognised exactly when the line ends right after it. */
  lemma InnerTrackCommandStep(c: TrackCommand, x: string)
    requires IsInnerCommand(c)
    requires c.Measure? ==> x == [] || !IsDigit(x[0])
    ensures InnerTrackCommand(CommandText(c) + x) == CommandLine(c, x)
  {
    match c
    case GogoStart =>
      KeywordOf("#GOGOSTART", x);
      InnerGogoStartStep("#GOGOSTART" + x, x);
    case GogoEnd =>
      var s := "#GOGOEND" + x;
      assert s[5] == 'E';
      KeywordOf("#GOGOEND", x);
      InnerGogoEndStep(s, x);
    case Measure(a, b) =>
      var args := NatText(a) + ("/" + (NatText(b) + x));
      var s := "#MEASURE " + args;
      assert CommandText(c) + x == s by {
        Associative("#MEASURE ", NatText(a) + ("/" + NatText(b)), x);
        Associative(NatText(a), "/" + NatText(b), x);
        Associative("/", NatText(b), x);
      }
      assert s[1] == 'M';
      InnerMeasureStep(s);
      MeasureArgumentsOf(a, b, x);
      MeasureCommandStep(args, x, c);
  }

  /** An inner command alone on its line. */
  lemma InnerTrackCommandOf(c: TrackCommand, eol: string, tail: string)
    requires IsInnerCommand(c) && EndsLine(eol, tail)
    ensures InnerTrackCommand(CommandText(c) + (eol + tail)) == Some(Parsed(tail, c))
  {
    EndsLineOf(eol, tail);
    InnerTrackCommandStep(c, eol + tail);
  }

  /** Inner commands take no argument: anything else on the line rejects
      them. (After `#MEASURE a/b` a further digit would only lengthen `b`.) */
  lemma InnerTrackCommandRejectsArgument(c: TrackCommand, x: string)
    requires IsInnerCommand(c)
    requires LineEndOrEof(x).None? && (c.Measure? ==> !IsDigit(x[0]))
    ensures InnerTrackCommand(CommandText(c) + x) == None
  {
    InnerTrackCommandStep(c, x);
  }

  /** `#START` and `#END` are not inner commands. */
  lemma InnerTrackCommandRejectsEnd(x: string)
    ensures InnerTrackCommand("#END" + x) == None
  {
    var s := "#END" + x;
    assert s[1] == 'E';
    InnerNoneStep(s);
  }

  // ------------------------------------------------------------------ notes

  lemma NoteOfDigitOfNote(n: Option<NoteType>)
    requires n.Some? ==> ValidNote(n.value)
    ensures NoteOfDigit(DigitOfNote(n)) == n
  {
  }

  lemma NoteGroupStep(s: string, n: nat)
    requires 0 < n <= |s| && Span(IsDigit, s) == n
    ensures NoteGroup(s) == Some(Parsed(s[n..], seq(n, i requires 0 <= i < n => NoteOfDigit(s[i]))))
  {
  }

  /** `notes` gives back one slot per digit, in the order written, and
      stops at the first character that is not a digit. */
  lemma NoteGroupOf(ns: seq<Option<NoteType>>, tail: string)
    requires |ns| > 0 && forall n :: n in ns && n.Some? ==> ValidNote(n.value)
    requires tail == [] || !IsDigit(tail[0])
    ensures NoteGroup(NotesText(ns) + tail) == Some(Parsed(tail, ns))
  {
    var text := NotesText(ns);
    var s := text + tail;
    var n := |ns|;
    assert Span(IsDigit, s) == n by {
      SpanOfConcat(IsDigit, text, tail);
    }
    NoteGroupStep(s, n);
    var got := seq(n, i requires 0 <= i < n => NoteOfDigit(s[i]));
    forall i | 0 <= i < n
      ensures got[i] == ns[i]
    {
      assert ns[i] in ns;
      assert s[i] == text[i] == DigitOfNote(ns[i]);
      NoteOfDigitOfNote(ns[i]);
    }
    assert got == ns;
    assert s[n..] == tail;
  }

  // ---------------------------------------------------------- track entries

  lemma TrackEntryCommandStep(s: string, t: string, c: TrackCommand, rest: string)
    requires SkipWhile(IsWhitespace, s) == t
    requires InnerTrackCommand(t) == Some(Parsed(rest, c))
    ensures TrackEntry(s) == Some(Parsed(rest, Command(c)))
  {
  }

  lemma TrackEntryNotesStep(s: string, t: string, ns: seq<Option<NoteType>>, rest: string)
    requires SkipWhile(IsWhitespace, s) == t
    requires InnerTrackCommand(t).None?
    requires NoteGroup(t) == Some(Parsed(rest, ns))
    ensures TrackEntry(s) == Some(Parsed(rest, Notes(ns)))
  {
  }

  lemma TrackEntryCommaStep(s: string, rest: string)
    requires SkipWhile(IsWhitespace, s) == "," + rest
    ensures TrackEntry(s) == Some(Parsed(rest, EndMeasure))
  {
    assert ("," + rest)[1..] == rest;
  }

  lemma TrackEntryNoneStep(s: string, t: string)
    requires SkipWhile(IsWhitespace, s) == t
    requires InnerTrackCommand(t).None? && NoteGroup(t).None?
    requires t == [] || t[0] != ','
    ensures TrackEntry(s).None?
  {
  }

  /** After blank lines, a comma always closes a measure on its own, whatever
      came before it: commas are never merged. */
  lemma CommaEndsMeasure(w: string, tail: string)
    requires AllWhitespace(w)
    ensures TrackEntry(w + ("," + tail)) == Some(Parsed(tail, EndMeasure))
  {
    SkipBlankLines(w, "," + tail);
    TrackEntryCommaStep(w + ("," + tail), tail);
  }

  /** Blank lines do not change which entry comes next. */
  lemma TrackEntrySkipsNewline(s: string)
    ensures TrackEntry("\n" + s) == TrackEntry(s)
  {
    SkipWhitespaceNewline(s);
  }

  /** One entry written on its own line is read back; a command consumes its
      line ending, notes and commas leave it for the next entry. */
  lemma TrackEntryOf(e: NoteTrackEntry, tail: string)
    requires ValidEntry(e)
    ensures TrackEntry(EntryText(e) + tail)
            == Some(Parsed(if e.Command? then tail else "\n" + tail, e))
  {
    match e
    case Command(c) =>
      var s := CommandText(c) + ("\n" + tail);
      assert EntryText(e) + tail == s by {
        Associative(CommandText(c), "\n", tail);
      }
      SkipNone(IsWhitespace, s);
      InnerTrackCommandOf(c, "\n", tail);
      TrackEntryCommandStep(s, s, c, tail);
    case Notes(ns) =>
      var s := NotesText(ns) + ("\n" + tail);
      assert EntryText(e) + tail == s by {
        Associative(NotesText(ns), "\n", tail);
      }
      assert IsDigit(s[0]);
      SkipNone(IsWhitespace, s);
      NoteGroupOf(ns, "\n" + tail);
      TrackEntryNotesStep(s, s, ns, "\n" + tail);
    case EndMeasure =>
      var s := "," + ("\n" + tail);
      assert EntryText(e) + tail == s by {
        Associative(",", "\n", tail);
      }
      SkipNone(IsWhitespace, s);
      TrackEntryCommaStep(s, "\n" + tail);
  }

  /** No entry starts at the `#END` line. */
  lemma NoEntryAtEnd(tail: string)
    ensures TrackEntry("#END\n" + tail).None?
  {
    var s := "#END\n" + tail;
    SkipNone(IsWhitespace, s);
    assert s == "#END" + ("\n" + tail);
    InnerTrackCommandRejectsEnd("\n" + tail);
    TrackEntryNoneStep(s, s);
  }

  lemma TrackEntriesStep(s: string, e: NoteTrackEntry, rest: string)
    requires TrackEntry(s) == Some(Parsed(rest, e))
    ensures TrackEntries(s) == Parsed(TrackEntries(rest).rest, [e] + TrackEntries(rest).value)
  {
  }

  lemma TrackEntriesStopStep(s: string)
    requires TrackEntry(s).None?
    ensures TrackEntries(s) == Parsed(s, [])
  {
  }

  /** An entry is read the same after the line ending its predecessor left. */
  lemma TrackEntryAfterLead(lead: string, e: NoteTrackEntry, x: string)
    requires lead == [] || lead == "\n"
    requires ValidEntry(e)
    ensures TrackEntry(lead + (EntryText(e) + x))
            == Some(Parsed(if e.Command? then x else "\n" + x, e))
  {
    TrackEntrySkipsLead(lead, EntryText(e) + x);
    TrackEntryOf(e, x);
  }

  /** The line ending a previous entry left does not change the next one. */
  lemma TrackEntrySkipsLead(lead: string, s: string)
    requires lead == [] || lead == "\n"
    ensures TrackEntry(lead + s) == TrackEntry(s)
  {
    if lead == [] {
      assert lead + s == s;
    } else {
      assert lead + s == "\n" + s;
      TrackEntrySkipsNewline(s);
    }
  }

  /** At the `#END` line no entries are read. */
  lemma TrackEntriesAtEnd(lead: string, tail: string)
    requires lead == [] || lead == "\n"
    ensures TrackEntries(lead + ("#END\n" + tail)) == Parsed(lead + ("#END\n" + tail), [])
  {
    NoEntryAtEnd(tail);
    if lead != [] {
      TrackEntrySkipsNewline("#END\n" + tail);
    }
    TrackEntriesStopStep(lead + ("#END\n" + tail));
  }

  /** `many0` reads one entry and carries on after it. */
  lemma TrackEntriesCons(lead: string, e: NoteTrackEntry, x: string, lead': string)
    requires lead == [] || lead == "\n"
    requires ValidEntry(e)
    requires lead' == if e.Command? then [] else "\n"
    ensures TrackEntries(lead + (EntryText(e) + x))
            == Parsed(TrackEntries(lead' + x).rest, [e] + TrackEntries(lead' + x).value)
  {
    TrackEntryAfterLead(lead, e, x);
    assert lead' + x == if e.Command? then x else "\n" + x;
    TrackEntriesStep(lead + (EntryText(e) + x), e, lead' + x);
  }

  lemma EntriesTextCons(es: seq<NoteTrackEntry>, y: string)
    requires |es| > 0 && forall e :: e in es ==> ValidEntry(e)
    ensures EntriesText(es) + y == EntryText(es[0]) + (EntriesText(es[1..]) + y)
  {
    assert es[0] in es;
    Associative(EntryText(es[0]), EntriesText(es[1..]), y);
  }

  lemma TrackEntriesCombine(s: string, s': string, more: Parsed<seq<NoteTrackEntry>>,
                            es: seq<NoteTrackEntry>, end1: string, end2: string)
    requires s == s' && |es| > 0
    requires TrackEntries(s') == Parsed(more.rest, [es[0]] + more.value)
    requires more.value == es[1..]
    requires more.rest == end1 || more.rest == end2
    ensures TrackEntries(s).value == es
    ensures TrackEntries(s).rest == end1 || TrackEntries(s).rest == end2
  {
    assert es == [es[0]] + es[1..];
  }

  /** The entries of a track body are read back in order, up to `#END`;
      `lead` is the line ending a notes or comma line leaves behind. */
  lemma {:induction false} TrackEntriesOf(lead: string, es: seq<NoteTrackEntry>, tail: string)
    requires lead == [] || lead == "\n"
    requires forall e :: e in es ==> ValidEntry(e)
    ensures var r := TrackEntries(lead + (EntriesText(es) + ("#END\n" + tail)));
      && r.value == es
      && (r.rest == "#END\n" + tail || r.rest == "\n" + ("#END\n" + tail))
    decreases es
  {
    if es == [] {
      assert EntriesText(es) + ("#END\n" + tail) == "#END\n" + tail;
      TrackEntriesAtEnd(lead, tail);
    } else {
      var e := es[0];
      assert e in es;
      assert es == [e] + es[1..];
      assert forall e' :: e' in es[1..] ==> ValidEntry(e') by {
        forall e' | e' in es[1..] ensures ValidEntry(e') {
          assert e' in es;
        }
      }
      var x := EntriesText(es[1..]) + ("#END\n" + tail);
      EntriesTextCons(es, "#END\n" + tail);
      var lead' := if e.Command? then [] else "\n";
      TrackEntriesCons(lead, e, x, lead');
      TrackEntriesOf(lead', es[1..], tail);
      TrackEntriesCombine(lead + (EntriesText(es) + ("#END\n" + tail)), lead + (EntryText(e) + x),
                          TrackEntries(lead' + x), es, "#END\n" + tail, "\n" + ("#END\n" + tail));
    }
  }

  lemma NoteTrackBlockStep(s: string, start: TrackCommand, afterStart: string, tail: string)
    requires StartCommand(s) == Some(Parsed(afterStart, start))
    requires EndCommand(TrackEntries(afterStart).rest) == Some(Parsed(tail, End))
    ensures NoteTrackBlock(s) == Some(Parsed(tail, [Command(start)] + TrackEntries(afterStart).value))
  {
  }

  /** `#END` is found after the entries, whichever line ending the last
      entry left. */
  lemma EndAfterEntries(rest: string, tail: string)
    requires rest == "#END\n" + tail || rest == "\n" + ("#END\n" + tail)
    ensures EndCommand(rest) == Some(Parsed(tail, End))
  {
    var endLine := "#END\n" + tail;
    assert endLine == "#END" + ("\n" + tail);
    if rest == endLine {
      assert rest == [] + ("#END" + ("\n" + tail));
      EndCommandOf([], "\n", tail);
    } else {
      EndCommandOf("\n", "\n", tail);
    }
  }

  lemma TrackTextSplit(t: seq<NoteTrackEntry>, tail: string)
    requires ValidTrack(t)
    ensures TrackText(t) + tail
            == [] + ("#START" + (PlayerText(t[0].command.player)
                 + ("\n" + (EntriesText(t[1..]) + ("#END\n" + tail)))))
  {
    var p := t[0].command.player;
    var body := EntriesText(t[1..]) + ("#END\n" + tail);
    Associative(EntriesText(t[1..]), "#END\n", tail);
    Associative("\n", EntriesText(t[1..]) + "#END\n", tail);
    Associative(CommandText(t[0].command), "\n" + (EntriesText(t[1..]) + "#END\n"), tail);
    Associative("#START", PlayerText(p), "\n" + body);
  }

  /** Round trip: the canonical text of a note track parses back to that
      track, and parsing stops right after its `#END` line. */
  lemma NoteTrackRoundTrip(t: seq<NoteTrackEntry>, tail: string)
    requires ValidTrack(t)
    ensures NoteTrackBlock(TrackText(t) + tail) == Some(Parsed(tail, t))
  {
    var p := t[0].command.player;
    var body := EntriesText(t[1..]) + ("#END\n" + tail);
    var s := TrackText(t) + tail;
    assert t == [Command(Start(p))] + t[1..];
    TrackTextSplit(t, tail);
    StartCommandOf([], p, "\n", body);
    assert body == [] + body;
    TrackEntriesOf([], t[1..], tail);
    EndAfterEntries(TrackEntries(body).rest, tail);
    NoteTrackBlockStep(s, Start(p), body, tail);
  }

  // ----------------------------------------------------------------- files

  lemma TjaItemMetadataStep(s: string, t: string, k: string, v: string, rest: string)
    requires SkipWhile(IsWhitespace, s) == t
    requires MetadataPair(t) == Some(Parsed(rest, (k, v)))
    ensures TjaItem(s) == Some(Parsed(rest, Metadata(k, v)))
  {
  }

  lemma TjaItemTrackStep(s: string, t: string, track: seq<NoteTrackEntry>, rest: string)
    requires SkipWhile(IsWhitespace, s) == t
    requires MetadataPair(t).None?
    requires NoteTrackBlock(t) == Some(Parsed(rest, track))
    ensures TjaItem(s) == Some(Parsed(rest, NoteTrack(track)))
  {
  }

  lemma MetadataItemOf(k: string, v: string, tail: string)
    requires ValidTag(k) && ValidValue(v)
    ensures TjaItem(k + (":" + (v + ("\n" + tail)))) == Some(Parsed(tail, Metadata(k, v)))
  {
    var s := k + (":" + (v + ("\n" + tail)));
    assert SkipWhile(IsWhitespace, s) == s by {
      assert IsTagChar(k[0]) && s[0] == k[0];
      SkipNone(IsWhitespace, s);
    }
    MetadataLineOf(k, v, "\n", tail);
    TjaItemMetadataStep(s, s, k, v, tail);
  }

  lemma TrackItemOf(t: seq<NoteTrackEntry>, tail: string)
    requires ValidTrack(t)
    ensures TjaItem(TrackText(t) + tail) == Some(Parsed(tail, NoteTrack(t)))
  {
    var s := TrackText(t) + tail;
    assert s[0] == '#';
    SkipNone(IsWhitespace, s);
    assert MetadataTagname(s).None?;
    NoteTrackRoundTrip(t, tail);
    TjaItemTrackStep(s, s, t, tail);
  }

  /** One item written canonically is read back. */
  lemma TjaItemOf(item: TJAFileItem, tail: string)
    requires ValidItem(item)
    ensures TjaItem(ItemText(item) + tail) == Some(Parsed(tail, item))
  {
    match item
    case Metadata(k, v) =>
      assert ItemText(item) + tail == k + (":" + (v + ("\n" + tail))) by {
        Associative(v, "\n", tail);
        Associative(":", v + "\n", tail);
        Associative(k, ":" + (v + "\n"), tail);
      }
      MetadataItemOf(k, v, tail);
    case NoteTrack(t) =>
      TrackItemOf(t, tail);
  }

  lemma TjaItemsStep(s: string, item: TJAFileItem, rest: string)
    requires TjaItem(s) == Some(Parsed(rest, item))
    ensures TjaItems(s) == Parsed(TjaItems(rest).rest, [item] + TjaItems(rest).value)
  {
  }

  /** What `many0` returns after one more element was read in front. */
  lemma ManyCons<T>(r: Parsed<seq<T>>, more: Parsed<seq<T>>, xs: seq<T>)
    requires |xs| > 0
    requires r == Parsed(more.rest, [xs[0]] + more.value)
    requires more.value == xs[1..]
    ensures r == Parsed(more.rest, xs)
  {
    assert xs == [xs[0]] + xs[1..];
  }

  /** The end of the input is not a metadata line. */
  lemma NoMetadataAtEof()
    ensures MetadataPair([]).None?
  {
    assert MetadataTagname([]).None?;
  }

  /** The end of the input is not a note track. */
  lemma NoTrackAtEof()
    ensures NoteTrackBlock([]).None?
  {
    assert Keyword("#START", []).None?;
    assert StartCommand([]).None?;
  }

  /** Skipping blank space consumes all of it. */
  lemma BlankSkipped(w: string)
    requires AllWhitespace(w)
    ensures SkipWhile(IsWhitespace, w) == []
  {
    assert w + [] == w;
    SkipPrefix(IsWhitespace, w, []);
  }

  /** Blank space alone is not an item. */
  lemma NoItemInBlank(w: string)
    requires AllWhitespace(w)
    ensures TjaItem(w).None?
  {
    BlankSkipped(w);
    NoMetadataAtEof();
    NoTrackAtEof();
  }

  /** Blank space alone holds no item. */
  lemma ItemsAtEnd(w: string)
    requires AllWhitespace(w)
    ensures TjaItems(w) == Parsed(w, [])
  {
    NoItemInBlank(w);
  }

  lemma {:induction false} TjaItemsOf(items: seq<TJAFileItem>, w: string)
    requires forall item :: item in items ==> ValidItem(item)
    requires AllWhitespace(w)
    ensures TjaItems(FileText(items) + w) == Parsed(w, items)
  {
    if items == [] {
      assert FileText(items) + w == w;
      ItemsAtEnd(w);
    } else {
      assert items[0] in items;
      assert forall item :: item in items[1..] ==> ValidItem(item) by {
        forall item | item in items[1..] ensures ValidItem(item) {
          assert item in items;
        }
      }
      var x := FileText(items[1..]) + w;
      assert FileText(items) + w == ItemText(items[0]) + x by {
        Associative(ItemText(items[0]), FileText(items[1..]), w);
      }
      TjaItemOf(items[0], x);
      TjaItemsStep(ItemText(items[0]) + x, items[0], x);
      TjaItemsOf(items[1..], w);
      ManyCons(TjaItems(FileText(items) + w), TjaItems(x), items);
    }
  }

  /** Round trip: the canonical text of a list of items, followed by any
      blank space, parses back to the same items in the same order. */
  lemma TjaFileRoundTrip(items: seq<TJAFileItem>, w: string)
    requires forall item :: item in items ==> ValidItem(item)
    requires AllWhitespace(w)
    ensures TjaFile(FileText(items) + w) == Some(Parsed([], items))
  {
    TjaItemsOf(items, w);
    BlankSkipped(w);
  }
}
