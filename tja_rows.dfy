/** Whole charts as chart authors lay them out: metadata lines (with or
    without blanks after the colon), note tracks laid out line by line, and
    blank lines anywhere, the last line ending with a line break. One law
    reads any such chart. */
module TjaRows {
  import opened Wrappers
  import opened TjaTypes
  import opened TjaLexer
  import opened TjaParser
  import opened TjaText
  import opened TjaLaws
  import opened TjaLayout
  import opened TjaLines

  /** One top-level row of a chart: a blank line, a metadata line, or a
      whole note track from its `#START` line to its `#END` line. */
  datatype FileRow =
    | BlankRow
    | MetadataRow(key: string, blanks: string, val: string)
    | TrackRows(player: Option<Player>, lines: seq<BodyLine>)

  predicate ValidRow(row: FileRow) {
    match row
    case BlankRow => true
    case MetadataRow(k, blanks, v) =>
      ValidTag(k) && ValidValue(v) && forall i :: 0 <= i < |blanks| ==> IsSpace(blanks[i])
    case TrackRows(_, lines) => ValidLines(lines)
  }

  predicate ValidRows(rows: seq<FileRow>) {
    forall row :: row in rows ==> ValidRow(row)
  }

  /** The text of `row`, its final line break, then `more`. */
  function RowThen(row: FileRow, more: string): string
  {
    match row
    case BlankRow => "\n" + more
    case MetadataRow(k, blanks, v) => k + (":" + (blanks + (v + ("\n" + more))))
    case TrackRows(p, lines) => "#START" + (PlayerText(p) + ("\n" + BodyText(lines, "\n" + more)))
  }

  /** The text of `rows`, then `more`. */
  function RowsText(rows: seq<FileRow>, more: string): string
  {
    if rows == [] then more else RowThen(rows[0], RowsText(rows[1..], more))
  }

  /** The items a row holds. */
  function RowItems(row: FileRow): seq<TJAFileItem>
  {
    match row
    case BlankRow => []
    case MetadataRow(k, _, v) => [Metadata(k, v)]
    case TrackRows(p, lines) => [NoteTrack([Command(Start(p))] + BodyEntries(lines))]
  }

  function RowsItems(rows: seq<FileRow>): seq<TJAFileItem>
  {
    if rows == [] then [] else RowItems(rows[0]) + RowsItems(rows[1..])
  }

  /** A chart with one more row in front. */
  lemma RowsCons(row: FileRow, rows: seq<FileRow>, more: string)
    ensures RowsText([row] + rows, more) == RowThen(row, RowsText(rows, more))
  {
    assert ([row] + rows)[1..] == rows;
  }

  lemma RowsItemsCons(row: FileRow, rows: seq<FileRow>)
    ensures RowsItems([row] + rows) == RowItems(row) + RowsItems(rows)
  {
    assert ([row] + rows)[1..] == rows;
  }

  lemma ValidRowsCons(row: FileRow, rows: seq<FileRow>)
    requires ValidRow(row) && ValidRows(rows)
    ensures ValidRows([row] + rows)
  {
  }

  /** What the items leave over is blank space alone. */
  predicate StopsAtEof(p: Parsed<seq<TJAFileItem>>) {
    SkipWhile(IsWhitespace, p.rest) == []
  }

  lemma TjaItemsStopStep(s: string)
    requires TjaItem(s).None?
    ensures TjaItems(s) == Parsed(s, [])
  {
  }

  /** A line break in front of a chart changes neither its items nor
      whether only blank space is left over. */
  lemma BlankRowStep(x: string)
    ensures TjaItems("\n" + x).value == TjaItems(x).value
    ensures StopsAtEof(TjaItems("\n" + x)) <==> StopsAtEof(TjaItems(x))
  {
    TjaItemSkipsBlank("\n", x);
    SkipWhitespaceNewline(x);
    match TjaItem(x)
    case None =>
      TjaItemsStopStep(x);
      TjaItemsStopStep("\n" + x);
    case Some(i) =>
      TjaItemsStep(x, i.value, i.rest);
      TjaItemsStep("\n" + x, i.value, i.rest);
  }

  lemma MetadataRowStep(k: string, blanks: string, v: string, x: string)
    requires ValidRow(MetadataRow(k, blanks, v))
    ensures TjaItems(k + (":" + (blanks + (v + ("\n" + x))))).value == [Metadata(k, v)] + TjaItems(x).value
    ensures TjaItems(k + (":" + (blanks + (v + ("\n" + x))))).rest == TjaItems(x).rest
  {
    var s := k + (":" + (blanks + (v + ("\n" + x))));
    NothingInFront(s);
    ItemsMetadata([], k, blanks, v, "\n", x, TjaItems(x).rest, TjaItems(x).value);
  }

  lemma TrackRowStep(p: Option<Player>, lines: seq<BodyLine>, x: string)
    requires ValidLines(lines)
    ensures TjaItems("#START" + (PlayerText(p) + ("\n" + BodyText(lines, "\n" + x)))).value
            == [NoteTrack([Command(Start(p))] + BodyEntries(lines))] + TjaItems(x).value
    ensures TjaItems("#START" + (PlayerText(p) + ("\n" + BodyText(lines, "\n" + x)))).rest == TjaItems(x).rest
  {
    var s := "#START" + (PlayerText(p) + ("\n" + BodyText(lines, "\n" + x)));
    assert s[0] == '#';
    NothingInFront(s);
    TrackOfLines(p, lines, "\n", x);
    ItemsTrack([], s, [Command(Start(p))] + BodyEntries(lines), x, TjaItems(x).rest, TjaItems(x).value);
  }

  lemma RowStep(row: FileRow, x: string)
    requires ValidRow(row)
    ensures TjaItems(RowThen(row, x)).value == RowItems(row) + TjaItems(x).value
    ensures StopsAtEof(TjaItems(RowThen(row, x))) <==> StopsAtEof(TjaItems(x))
  {
    match row
    case BlankRow =>
      BlankRowStep(x);
      NothingInFront(TjaItems(x).value);
    case MetadataRow(k, blanks, v) => MetadataRowStep(k, blanks, v, x);
    case TrackRows(p, lines) => TrackRowStep(p, lines, x);
  }

  /** Reading a chart laid out row by row, followed by blank space, gives
      the items of its rows, in order, with nothing but blank space left
      over. */
  lemma {:induction false} RowsItemsOf(rows: seq<FileRow>, w: string)
    requires ValidRows(rows) && AllWhitespace(w)
    ensures TjaItems(RowsText(rows, w)).value == RowsItems(rows)
    ensures StopsAtEof(TjaItems(RowsText(rows, w)))
    decreases rows
  {
    if rows == [] {
      ItemsAtEnd(w);
      NothingAfter(w);
      SkipPrefix(IsWhitespace, w, []);
    } else {
      var more := rows[1..];
      assert ValidRows(more) by {
        forall row | row in more ensures ValidRow(row) { assert row in rows; }
      }
      RowsItemsOf(more, w);
      RowStep(rows[0], RowsText(more, w));
    }
  }

  /** `tja_file` accepts every chart laid out row by row and followed by
      blank space, with the items of its rows. */
  lemma FileOfRows(rows: seq<FileRow>, w: string)
    requires ValidRows(rows) && AllWhitespace(w)
    ensures TjaFile(RowsText(rows, w)) == Some(Parsed([], RowsItems(rows)))
  {
    RowsItemsOf(rows, w);
  }

  lemma Regroup(a: seq<TJAFileItem>, b: seq<TJAFileItem>, c: seq<TJAFileItem>)
    ensures a + (b + c) == (a + b) + c
  {
  }

  /** Rows in front of any text: their items come first, and whether only
      blank space is left over is decided by the text after them. */
  lemma {:induction false} RowsPrefix(rows: seq<FileRow>, x: string)
    requires ValidRows(rows)
    ensures TjaItems(RowsText(rows, x)).value == RowsItems(rows) + TjaItems(x).value
    ensures StopsAtEof(TjaItems(RowsText(rows, x))) <==> StopsAtEof(TjaItems(x))
    decreases rows
  {
    if rows == [] {
      NothingInFront(TjaItems(x).value);
    } else {
      var more := rows[1..];
      assert ValidRows(more) by {
        forall row | row in more ensures ValidRow(row) { assert row in rows; }
      }
      Regroup(RowItems(rows[0]), RowsItems(more), TjaItems(x).value);
      RowsPrefix(more, x);
      RowStep(rows[0], RowsText(more, x));
    }
  }

  /** A chart whose rows are followed by text that is no item, and not
      blank space alone, is rejected as a whole. */
  lemma FileStuckAfterRows(rows: seq<FileRow>, x: string)
    requires ValidRows(rows)
    requires TjaItem(x).None? && SkipWhile(IsWhitespace, x) != []
    ensures TjaFile(RowsText(rows, x)).None?
  {
    TjaItemsStopStep(x);
    RowsPrefix(rows, x);
  }

  /** Text starting with `#` that is no note track is no item either. */
  lemma NoItemAtRejectedTrack(s: string)
    requires |s| > 0 && s[0] == '#' && NoteTrackBlock(s).None?
    ensures TjaItem(s).None?
    ensures SkipWhile(IsWhitespace, s) != []
  {
    SkipNone(IsWhitespace, s);
    NoMetadataAtHash(s);
  }

  /** Valid rows followed by `#` text that does not read as a note track:
      the whole chart is rejected, whatever comes after. */
  lemma FileRejectsTrack(rows: seq<FileRow>, s: string)
    requires ValidRows(rows)
    requires |s| > 0 && s[0] == '#' && NoteTrackBlock(s).None?
    ensures TjaFile(RowsText(rows, s)).None?
  {
    NoItemAtRejectedTrack(s);
    FileStuckAfterRows(rows, s);
  }

  /** A `#START` with something else on its line (other than ` P1` or
      ` P2`) rejects the whole chart. */
  lemma FileRejectsStartArgument(rows: seq<FileRow>, p: Option<Player>, x: string)
    requires ValidRows(rows) && LineEndOrEof(x).None?
    requires p.None? ==> !(" P1" <= x) && !(" P2" <= x)
    ensures TjaFile(RowsText(rows, "#START" + (PlayerText(p) + x))).None?
  {
    var s := "#START" + (PlayerText(p) + x);
    StartCommandRejectsTrailing([], p, x);
    NothingInFront(s);
    FileRejectsTrack(rows, s);
  }

  /** An inner command with something else on its line, anywhere in a
      track after well-formed lines, rejects the whole chart. */
  lemma FileRejectsCommandArgument(rows: seq<FileRow>, p: Option<Player>, lines: seq<BodyLine>,
                                   w: string, c: TrackCommand, arg: string)
    requires ValidRows(rows) && ValidLines(lines) && AllWhitespace(w) && IsInnerCommand(c)
    requires LineEndOrEof(arg).None? && (c.Measure? ==> !IsDigit(arg[0]))
    ensures TjaFile(RowsText(rows, "#START" + (PlayerText(p) + ("\n" + LinesText(lines, w + (CommandText(c) + arg)))))).None?
  {
    TrackRejectsArgument(p, lines, w, c, arg);
    FileRejectsTrack(rows, "#START" + (PlayerText(p) + ("\n" + LinesText(lines, w + (CommandText(c) + arg)))));
  }

  /** An `#END` with something else on its line rejects the whole chart. */
  lemma FileRejectsEndArgument(rows: seq<FileRow>, p: Option<Player>, lines: seq<BodyLine>, x: string)
    requires ValidRows(rows) && ValidLines(lines) && LineEndOrEof(x).None?
    ensures TjaFile(RowsText(rows, "#START" + (PlayerText(p) + ("\n" + BodyText(lines, x))))).None?
  {
    TrackRejectsTrailingEnd(p, lines, x);
    FileRejectsTrack(rows, "#START" + (PlayerText(p) + ("\n" + BodyText(lines, x))));
  }
}
