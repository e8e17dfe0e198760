/** Laws about charts as people write them rather than as the canonical
    printer lays them out: blank lines anywhere between entries and items, a
    comma right after the notes of its measure, blanks after a metadata
    colon, and any blank space at the end of the file. Each law reads one
    piece in front of text whose parse is already known, so a whole chart is
    read by applying them from its last line back to its first. */
module TjaLayout {
  import opened Wrappers
  import opened TjaTypes
  import opened TjaLexer
  import opened TjaParser
  import opened TjaText
  import opened TjaLaws

  /** Blank space in front of an entry does not change the entry. */
  lemma TrackEntrySkipsBlank(w: string, s: string)
    requires AllWhitespace(w)
    ensures TrackEntry(w + s) == TrackEntry(s)
  {
    SkipPrefix(IsWhitespace, w, s);
  }

  /** Blank space in front of an item does not change the item. */
  lemma TjaItemSkipsBlank(w: string, s: string)
    requires AllWhitespace(w)
    ensures TjaItem(w + s) == TjaItem(s)
  {
    SkipPrefix(IsWhitespace, w, s);
  }

  // ---------------------------------------------------------- track bodies

  /** Notes read as an entry, followed by anything but a digit. */
  lemma NotesEntryOf(ns: seq<Option<NoteType>>, x: string)
    requires ValidEntry(Notes(ns))
    requires x == [] || !IsDigit(x[0])
    ensures TrackEntry(NotesText(ns) + x) == Some(Parsed(x, Notes(ns)))
  {
    var s := NotesText(ns) + x;
    assert IsDigit(s[0]);
    SkipNone(IsWhitespace, s);
    NoteGroupOf(ns, x);
    TrackEntryNotesStep(s, s, ns, x);
  }

  /** An inner command on its own line, after any blank lines. */
  lemma EntriesCommandLine(w: string, c: TrackCommand, eol: string, x: string,
                           r: string, es: seq<NoteTrackEntry>)
    requires AllWhitespace(w) && IsInnerCommand(c) && IsLineEnd(eol)
    requires TrackEntries(x) == Parsed(r, es)
    ensures TrackEntries(w + (CommandText(c) + (eol + x))) == Parsed(r, [Command(c)] + es)
  {
    var s := CommandText(c) + (eol + x);
    assert TrackEntry(w + s) == Some(Parsed(x, Command(c))) by {
      TrackEntrySkipsBlank(w, s);
      SkipNone(IsWhitespace, s);
      InnerTrackCommandOf(c, eol, x);
      TrackEntryCommandStep(s, s, c, x);
    }
    TrackEntriesStep(w + s, Command(c), x);
  }

  /** A group of notes, after any blank lines; whatever follows the last
      digit, a comma included, is the next entry's. */
  lemma EntriesNotes(w: string, ns: seq<Option<NoteType>>, x: string,
                     r: string, es: seq<NoteTrackEntry>)
    requires AllWhitespace(w) && ValidEntry(Notes(ns))
    requires x == [] || !IsDigit(x[0])
    requires TrackEntries(x) == Parsed(r, es)
    ensures TrackEntries(w + (NotesText(ns) + x)) == Parsed(r, [Notes(ns)] + es)
  {
    var s := NotesText(ns) + x;
    NotesEntryOf(ns, x);
    TrackEntrySkipsBlank(w, s);
    TrackEntriesStep(w + s, Notes(ns), x);
  }

  /** A comma, after any blank lines, closes a measure. */
  lemma EntriesComma(w: string, x: string, r: string, es: seq<NoteTrackEntry>)
    requires AllWhitespace(w)
    requires TrackEntries(x) == Parsed(r, es)
    ensures TrackEntries(w + ("," + x)) == Parsed(r, [EndMeasure] + es)
  {
    CommaEndsMeasure(w, x);
    TrackEntriesStep(w + ("," + x), EndMeasure, x);
  }

  /** The entries stop at `#END`, leaving the blank lines before it. */
  lemma EntriesAtEnd(w: string, x: string)
    requires AllWhitespace(w)
    ensures TrackEntries(w + ("#END" + x)) == Parsed(w + ("#END" + x), [])
  {
    var s := "#END" + x;
    assert TrackEntry(w + s).None? by {
      TrackEntrySkipsBlank(w, s);
      SkipNone(IsWhitespace, s);
      InnerTrackCommandRejectsEnd(x);
      TrackEntryNoneStep(s, s);
    }
    TrackEntriesStopStep(w + s);
  }

  /** A note track: its `#START` line, a body whose entries are known and
      which stops at blank lines and `#END`, then the end of that line. */
  lemma NoteTrackOf(w: string, p: Option<Player>, eol: string, body: string,
                    es: seq<NoteTrackEntry>, w': string, eol': string, tail: string)
    requires AllWhitespace(w) && AllWhitespace(w') && IsLineEnd(eol) && EndsLine(eol', tail)
    requires TrackEntries(body) == Parsed(w' + ("#END" + (eol' + tail)), es)
    ensures NoteTrackBlock(w + ("#START" + (PlayerText(p) + (eol + body))))
            == Some(Parsed(tail, [Command(Start(p))] + es))
  {
    var s := w + ("#START" + (PlayerText(p) + (eol + body)));
    StartCommandOf(w, p, eol, body);
    EndCommandOf(w', eol', tail);
    NoteTrackBlockStep(s, Start(p), body, tail);
  }

  // ----------------------------------------------------------------- files

  /** A metadata line, after any blank lines. */
  lemma ItemsMetadata(w: string, k: string, blanks: string, v: string, eol: string, tail: string,
                      r: string, items: seq<TJAFileItem>)
    requires AllWhitespace(w) && ValidTag(k) && ValidValue(v) && EndsLine(eol, tail)
    requires forall i :: 0 <= i < |blanks| ==> IsSpace(blanks[i])
    requires TjaItems(tail) == Parsed(r, items)
    ensures TjaItems(w + (k + (":" + (blanks + (v + (eol + tail))))))
            == Parsed(r, [Metadata(k, v)] + items)
  {
    var s := k + (":" + (blanks + (v + (eol + tail))));
    assert TjaItem(w + s) == Some(Parsed(tail, Metadata(k, v))) by {
      TjaItemSkipsBlank(w, s);
      assert IsTagChar(k[0]) && s[0] == k[0];
      SkipNone(IsWhitespace, s);
      MetadataPairOf(k, blanks, v, eol, tail);
      TjaItemMetadataStep(s, s, k, v, tail);
    }
    TjaItemsStep(w + s, Metadata(k, v), tail);
  }

  /** Text starting with `#` is no metadata line. */
  lemma NoMetadataAtHash(s: string)
    requires |s| > 0 && s[0] == '#'
    ensures MetadataPair(s).None?
  {
    assert Span(IsTagChar, s) == 0;
  }

  /** A note track read as an item. */
  lemma TrackItemAt(s: string, t: seq<NoteTrackEntry>, tail: string)
    requires |s| > 0 && s[0] == '#'
    requires NoteTrackBlock(s) == Some(Parsed(tail, t))
    ensures TjaItem(s) == Some(Parsed(tail, NoteTrack(t)))
  {
    SkipNone(IsWhitespace, s);
    NoMetadataAtHash(s);
    TjaItemTrackStep(s, s, t, tail);
  }

  /** A note track, after any blank lines. */
  lemma ItemsTrack(w: string, s: string, t: seq<NoteTrackEntry>, tail: string,
                   r: string, items: seq<TJAFileItem>)
    requires AllWhitespace(w) && |s| > 0 && s[0] == '#'
    requires NoteTrackBlock(s) == Some(Parsed(tail, t))
    requires TjaItems(tail) == Parsed(r, items)
    ensures TjaItems(w + s) == Parsed(r, [NoteTrack(t)] + items)
  {
    TrackItemAt(s, t, tail);
    TjaItemSkipsBlank(w, s);
    TjaItemsStep(w + s, NoteTrack(t), tail);
  }

  /** `tja_file` accepts items followed by nothing but blank space. */
  lemma FileOf(s: string, w: string, items: seq<TJAFileItem>)
    requires AllWhitespace(w)
    requires TjaItems(s) == Parsed(w, items)
    ensures TjaFile(s) == Some(Parsed([], items))
  {
    assert w + [] == w;
    SkipPrefix(IsWhitespace, w, []);
  }
}
