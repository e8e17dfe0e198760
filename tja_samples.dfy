/** The whole-track and whole-file assertions of the parser's test suite.
    Each chart is laid out as rows and lines, its text is assembled one line
    at a time, and the layout laws then give what `note_track` or `tja_file`
    returns on it. */
module TjaSamples {
  import opened Wrappers
  import opened TjaTypes
  import opened TjaLexer
  import opened TjaParser
  import opened TjaText
  import opened TjaLaws
  import opened TjaLines
  import opened TjaRows
  import opened TjaPreprocess
  import opened TjaChart

  const Dd: seq<Option<NoteType>> := [Some(Don), Some(Don), None, None]
  const KatOnly: seq<Option<NoteType>> := [Some(Kat)]

  lemma NotesTexts()
    ensures NotesText(Dd) == "1100" && NotesText(KatOnly) == "2"
  {
  }

  /** One more line in front of a body whose text is known. */
  lemma PrependLine(l: BodyLine, ls: seq<BodyLine>, y: string, t: string)
    requires BodyText(ls, y) == t
    ensures BodyText([l] + ls, y) == LineThen(l, t)
    ensures ls == [] ==> BodyText([l], y) == LineThen(l, t)
  {
    LinesCons(l, ls, y);
    if ls == [] {
      assert [l] + ls == [l];
    }
  }

  /** The first line of a track for both players, then `x`. */
  lemma TrackHead(x: string, y: string)
    ensures "#START" + (PlayerText(None) + ("\n" + (x + y))) == ("#START\n" + x) + y
  {
  }

  lemma Assoc3(a: string, b: string, c: string, t: string)
    ensures a + (b + (c + t)) == (a + b + c) + t
  {
  }

  lemma Assoc5(a: string, b: string, c: string, d: string, e: string, t: string)
    ensures a + (b + (c + (d + (e + t)))) == (a + b + c + d + e) + t
  {
  }

  // `note_track` on a track of three measures and an empty one

  function TrackLines(): seq<BodyLine> {
    [NotesLine(Dd, true), NotesLine(Dd, true), NotesLine(KatOnly, true), CommaLine]
  }

  lemma TrackText1(y: string)
    ensures BodyText([CommaLine], y) == ",\n#END" + y
  {
    PrependLine(CommaLine, [], y, "#END" + y);
  }

  lemma TrackText2(y: string)
    ensures BodyText([NotesLine(KatOnly, true), CommaLine], y) == "2,\n,\n#END" + y
  {
    TrackText1(y);
    NotesTexts();
    PrependLine(NotesLine(KatOnly, true), [CommaLine], y, ",\n#END" + y);
  }

  lemma TrackText3(y: string)
    ensures BodyText([NotesLine(Dd, true), NotesLine(KatOnly, true), CommaLine], y) == "1100,\n2,\n,\n#END" + y
  {
    TrackText2(y);
    NotesTexts();
    PrependLine(NotesLine(Dd, true), [NotesLine(KatOnly, true), CommaLine], y, "2,\n,\n#END" + y);
  }

  lemma TrackText(y: string)
    ensures BodyText(TrackLines(), y) == "1100,\n1100,\n2,\n,\n#END" + y
  {
    TrackText3(y);
    NotesTexts();
    var ls := [NotesLine(Dd, true), NotesLine(KatOnly, true), CommaLine];
    PrependLine(NotesLine(Dd, true), ls, y, "1100,\n2,\n,\n#END" + y);
    assert TrackLines() == [NotesLine(Dd, true)] + ls;
  }

  lemma TrackLayout(s: string, y: string)
    requires s == "#START\n1100,\n1100,\n2,\n,\n#END" && y == []
    ensures s == "#START" + (PlayerText(None) + ("\n" + BodyText(TrackLines(), y)))
  {
    TrackText(y);
    TrackHead("1100,\n1100,\n2,\n,\n#END", y);
  }

  lemma TrackLinesValid()
    ensures ValidLines(TrackLines())
  {
  }

  lemma TrackLinesEntries()
    ensures [Command(Start(None))] + BodyEntries(TrackLines())
            == [Command(Start(None)), Notes(Dd), EndMeasure, Notes(Dd), EndMeasure, Notes(KatOnly), EndMeasure, EndMeasure]
  {
  }

  lemma NoteTrackExample(s: string)
    requires s == "#START\n1100,\n1100,\n2,\n,\n#END"
    ensures NoteTrackBlock(s) == Some(Parsed("", [
      Command(Start(None)),
      Notes([Some(Don), Some(Don), None, None]), EndMeasure,
      Notes([Some(Don), Some(Don), None, None]), EndMeasure,
      Notes([Some(Kat)]), EndMeasure,
      EndMeasure]))
  {
    var none: string := [];
    TrackLayout(s, none + none);
    TrackLinesValid();
    TrackLinesEntries();
    TrackOfLines(None, TrackLines(), none, none);
  }

  // `tja_file` on a chart with three metadata lines and one track

  function MeasureLines(): seq<BodyLine> {
    [NotesLine(Dd, true), NotesLine(Dd, true), NotesLine(KatOnly, true), CommaLine, BlankLine]
  }

  function GogoLines(): seq<BodyLine> {
    [BlankLine, CommandLine(GogoStart), BlankLine] + MeasureLines()
  }

  lemma DdChunk(t: string)
    ensures LineThen(NotesLine(Dd, true), t) == "1100,\n" + t
  {
    NotesTexts();
    Assoc3(NotesText(Dd), ",", "\n", t);
    assert NotesText(Dd) + "," + "\n" == "1100,\n";
  }

  lemma KatChunk(t: string)
    ensures LineThen(NotesLine(KatOnly, true), t) == "2,\n" + t
  {
    NotesTexts();
    Assoc3(NotesText(KatOnly), ",", "\n", t);
    assert NotesText(KatOnly) + "," + "\n" == "2,\n";
  }

  lemma CommaChunk(t: string)
    ensures LineThen(CommaLine, t) == ",\n" + t
  {
  }

  lemma GogoChunk(t: string)
    ensures LineThen(CommandLine(GogoStart), t) == "#GOGOSTART\n" + t
  {
    assert CommandText(GogoStart) == "#GOGOSTART";
  }

  lemma MeasureText(y: string)
    ensures BodyText(MeasureLines(), y)
            == "1100,\n" + ("1100,\n" + ("2,\n" + (",\n" + ("\n" + ("#END" + y)))))
  {
    var t0 := "#END" + y;
    var t1 := "\n" + t0;
    var t2 := ",\n" + t1;
    var t3 := "2,\n" + t2;
    var t4 := "1100,\n" + t3;
    PrependLine(BlankLine, [], y, t0);
    PrependLine(CommaLine, [BlankLine], y, t1);
    CommaChunk(t1);
    PrependLine(NotesLine(KatOnly, true), [CommaLine, BlankLine], y, t2);
    KatChunk(t2);
    PrependLine(NotesLine(Dd, true), [NotesLine(KatOnly, true), CommaLine, BlankLine], y, t3);
    DdChunk(t3);
    PrependLine(NotesLine(Dd, true), [NotesLine(Dd, true), NotesLine(KatOnly, true), CommaLine, BlankLine], y, t4);
    DdChunk(t4);
  }

  lemma GogoText(ms: seq<BodyLine>, y: string)
    ensures BodyText([BlankLine, CommandLine(GogoStart), BlankLine] + ms, y)
            == "\n" + ("#GOGOSTART\n" + ("\n" + BodyText(ms, y)))
  {
    var t0 := BodyText(ms, y);
    PrependLine(BlankLine, ms, y, t0);
    PrependLine(CommandLine(GogoStart), [BlankLine] + ms, y, "\n" + t0);
    GogoChunk("\n" + t0);
    PrependLine(BlankLine, [CommandLine(GogoStart)] + ([BlankLine] + ms), y, "#GOGOSTART\n" + ("\n" + t0));
    assert [BlankLine, CommandLine(GogoStart), BlankLine] + ms == [BlankLine] + ([CommandLine(GogoStart)] + ([BlankLine] + ms));
  }

  lemma MeasureEntries()
    ensures BodyEntries(MeasureLines())
            == [Notes(Dd), EndMeasure, Notes(Dd), EndMeasure, Notes(KatOnly), EndMeasure, EndMeasure]
  {
    var l5 := [BlankLine];
    var l4 := [CommaLine] + l5;
    var l3 := [NotesLine(KatOnly, true)] + l4;
    var l2 := [NotesLine(Dd, true)] + l3;
    var l1 := [NotesLine(Dd, true)] + l2;
    EntriesCons(BlankLine, []);
    EntriesCons(CommaLine, l5);
    EntriesCons(NotesLine(KatOnly, true), l4);
    EntriesCons(NotesLine(Dd, true), l3);
    EntriesCons(NotesLine(Dd, true), l2);
    assert MeasureLines() == l1;
  }

  lemma MeasureValid()
    ensures ValidLines(MeasureLines())
  {
  }

  lemma GogoEntries(ms: seq<BodyLine>)
    ensures BodyEntries([BlankLine, CommandLine(GogoStart), BlankLine] + ms) == [Command(GogoStart)] + BodyEntries(ms)
  {
    EntriesCons(BlankLine, ms);
    EntriesCons(CommandLine(GogoStart), [BlankLine] + ms);
    EntriesCons(BlankLine, [CommandLine(GogoStart)] + ([BlankLine] + ms));
    assert [BlankLine, CommandLine(GogoStart), BlankLine] + ms == [BlankLine] + ([CommandLine(GogoStart)] + ([BlankLine] + ms));
  }

  lemma GogoValid(ms: seq<BodyLine>)
    requires ValidLines(ms)
    ensures ValidLines([BlankLine, CommandLine(GogoStart), BlankLine] + ms)
  {
    ValidLinesCons(BlankLine, ms);
    ValidLinesCons(CommandLine(GogoStart), [BlankLine] + ms);
    ValidLinesCons(BlankLine, [CommandLine(GogoStart)] + ([BlankLine] + ms));
    assert [BlankLine, CommandLine(GogoStart), BlankLine] + ms == [BlankLine] + ([CommandLine(GogoStart)] + ([BlankLine] + ms));
  }

  const Title := MetadataRow("TITLE", " ", "POP TEAM EPIC")
  const Bpm := MetadataRow("BPM", "", "142")
  const Wave := MetadataRow("WAVE", "", "POP TEAM EPIC.ogg")

  function ItemListRows(): seq<FileRow> {
    Preamble + [TrackRows(None, GogoLines())]
  }

  lemma TitleChunk(t: string)
    ensures RowThen(Title, t) == "TITLE: POP TEAM EPIC\n" + t
  {
    Assoc5("TITLE", ":", " ", "POP TEAM EPIC", "\n", t);
    assert "TITLE" + ":" + " " + "POP TEAM EPIC" + "\n" == "TITLE: POP TEAM EPIC\n";
  }

  lemma BpmChunk(t: string)
    ensures RowThen(Bpm, t) == "BPM:142\n" + t
  {
  }

  lemma WaveChunk(t: string)
    ensures RowThen(Wave, t) == "WAVE:POP TEAM EPIC.ogg\n" + t
  {
    Assoc5("WAVE", ":", "", "POP TEAM EPIC.ogg", "\n", t);
    assert "WAVE" + ":" + "" + "POP TEAM EPIC.ogg" + "\n" == "WAVE:POP TEAM EPIC.ogg\n";
  }

  lemma TitleValid() ensures ValidRow(Title) {}
  lemma BpmValid() ensures ValidRow(Bpm) {}
  lemma WaveValid() ensures ValidRow(Wave) {}

  lemma LowerText(rest: seq<FileRow>, more: string)
    ensures RowsText([Wave, BlankRow, BlankRow] + rest, more)
            == "WAVE:POP TEAM EPIC.ogg\n" + ("\n" + ("\n" + RowsText(rest, more)))
  {
    var t := RowsText(rest, more);
    RowsCons(BlankRow, rest, more);
    RowsCons(BlankRow, [BlankRow] + rest, more);
    RowsCons(Wave, [BlankRow] + ([BlankRow] + rest), more);
    WaveChunk("\n" + ("\n" + t));
    assert [Wave, BlankRow, BlankRow] + rest == [Wave] + ([BlankRow] + ([BlankRow] + rest));
  }

  lemma UpperText(rest: seq<FileRow>, more: string)
    ensures RowsText([Title, Bpm, BlankRow] + rest, more)
            == "TITLE: POP TEAM EPIC\n" + ("BPM:142\n" + ("\n" + RowsText(rest, more)))
  {
    var t := RowsText(rest, more);
    RowsCons(BlankRow, rest, more);
    RowsCons(Bpm, [BlankRow] + rest, more);
    BpmChunk("\n" + t);
    RowsCons(Title, [Bpm] + ([BlankRow] + rest), more);
    TitleChunk("BPM:142\n" + ("\n" + t));
    assert [Title, Bpm, BlankRow] + rest == [Title] + ([Bpm] + ([BlankRow] + rest));
  }

  lemma ThreeRowsItems(a: FileRow, b: FileRow, c: FileRow, rest: seq<FileRow>)
    ensures RowsItems([a, b, c] + rest) == RowItems(a) + (RowItems(b) + (RowItems(c) + RowsItems(rest)))
  {
    RowsItemsCons(c, rest);
    RowsItemsCons(b, [c] + rest);
    RowsItemsCons(a, [b] + ([c] + rest));
    assert [a, b, c] + rest == [a] + ([b] + ([c] + rest));
  }

  lemma ThreeRowsValid(a: FileRow, b: FileRow, c: FileRow, rest: seq<FileRow>)
    requires ValidRow(a) && ValidRow(b) && ValidRow(c) && ValidRows(rest)
    ensures ValidRows([a, b, c] + rest)
  {
    ValidRowsCons(c, rest);
    ValidRowsCons(b, [c] + rest);
    ValidRowsCons(a, [b] + ([c] + rest));
    assert [a, b, c] + rest == [a] + ([b] + ([c] + rest));
  }

  const Preamble := [Title, Bpm, BlankRow, Wave, BlankRow, BlankRow]

  lemma PreambleSplit(rest: seq<FileRow>)
    ensures Preamble + rest == [Title, Bpm, BlankRow] + ([Wave, BlankRow, BlankRow] + rest)
  {
  }

  /** The rows of the item-list chart in front of its track. */
  lemma PreambleText(rest: seq<FileRow>, more: string)
    ensures RowsText(Preamble + rest, more)
            == "TITLE: POP TEAM EPIC\n" + ("BPM:142\n" + ("\n" + ("WAVE:POP TEAM EPIC.ogg\n" + ("\n" + ("\n" + RowsText(rest, more))))))
  {
    PreambleSplit(rest);
    LowerText(rest, more);
    UpperText([Wave, BlankRow, BlankRow] + rest, more);
  }

  lemma PreambleItems(rest: seq<FileRow>)
    ensures RowsItems(Preamble + rest)
            == [Metadata("TITLE", "POP TEAM EPIC"), Metadata("BPM", "142"), Metadata("WAVE", "POP TEAM EPIC.ogg")] + RowsItems(rest)
  {
    var lower := [Wave, BlankRow, BlankRow] + rest;
    PreambleSplit(rest);
    ThreeRowsItems(Wave, BlankRow, BlankRow, rest);
    ThreeRowsItems(Title, Bpm, BlankRow, lower);
  }

  lemma PreambleValid(rest: seq<FileRow>)
    requires ValidRows(rest)
    ensures ValidRows(Preamble + rest)
  {
    TitleValid();
    BpmValid();
    WaveValid();
    var lower := [Wave, BlankRow, BlankRow] + rest;
    PreambleSplit(rest);
    ThreeRowsValid(Wave, BlankRow, BlankRow, rest);
    ThreeRowsValid(Title, Bpm, BlankRow, lower);
  }

  /** The first line of a track for both players, then `x`. */
  lemma StartLine(x: string)
    ensures "#START" + (PlayerText(None) + ("\n" + x)) == "#START\n" + x
  {
  }

  /** A track for both players as the last row. */
  lemma TrackRowText(lines: seq<BodyLine>, more: string)
    ensures RowsText([TrackRows(None, lines)], more) == "#START\n" + BodyText(lines, "\n" + more)
  {
    RowsCons(TrackRows(None, lines), [], more);
    StartLine(BodyText(lines, "\n" + more));
  }

  lemma ItemListLayout(s: string, none: string)
    requires none == []
    requires s == "TITLE: POP TEAM EPIC\n" + ("BPM:142\n" + ("\n" + ("WAVE:POP TEAM EPIC.ogg\n" + ("\n" + ("\n"
      + ("#START\n" + ("\n" + ("#GOGOSTART\n" + ("\n" + ("1100,\n" + ("1100,\n" + ("2,\n" + (",\n" + ("\n"
      + "#END\n"))))))))))))))
    ensures s == RowsText(ItemListRows(), none)
  {
    var ms := MeasureLines();
    var y := "\n" + none;
    assert "#END" + y == "#END\n";
    MeasureText(y);
    GogoText(ms, y);
    TrackRowText(GogoLines(), none);
    PreambleText([TrackRows(None, GogoLines())], none);
  }

  lemma ItemListTrack()
    ensures [Command(Start(None))] + BodyEntries(GogoLines())
            == [Command(Start(None)), Command(GogoStart),
                Notes(Dd), EndMeasure, Notes(Dd), EndMeasure, Notes(KatOnly), EndMeasure, EndMeasure]
  {
    GogoEntries(MeasureLines());
    MeasureEntries();
    TwoInFront(Command(Start(None)), Command(GogoStart), BodyEntries(MeasureLines()));
  }

  lemma ItemListItems()
    ensures RowsItems(ItemListRows()) == [
      Metadata("TITLE", "POP TEAM EPIC"), Metadata("BPM", "142"), Metadata("WAVE", "POP TEAM EPIC.ogg"),
      NoteTrack([Command(Start(None)), Command(GogoStart),
                 Notes(Dd), EndMeasure, Notes(Dd), EndMeasure, Notes(KatOnly), EndMeasure, EndMeasure])]
  {
    var track := TrackRows(None, GogoLines());
    PreambleItems([track]);
    RowsItemsCons(track, []);
    NothingAfter(RowItems(track));
    ItemListTrack();
  }

  lemma ItemListValid()
    ensures ValidRows(ItemListRows())
  {
    var track := TrackRows(None, GogoLines());
    MeasureValid();
    GogoValid(MeasureLines());
    ValidRowsCons(track, []);
    PreambleValid([track]);
  }

  lemma ItemListExample(s: string)
    requires s == "TITLE: POP TEAM EPIC\n" + ("BPM:142\n" + ("\n" + ("WAVE:POP TEAM EPIC.ogg\n" + ("\n" + ("\n"
      + ("#START\n" + ("\n" + ("#GOGOSTART\n" + ("\n" + ("1100,\n" + ("1100,\n" + ("2,\n" + (",\n" + ("\n"
      + "#END\n"))))))))))))))
    ensures TjaFile(s) == Some(Parsed("", [
      Metadata("TITLE", "POP TEAM EPIC"), Metadata("BPM", "142"), Metadata("WAVE", "POP TEAM EPIC.ogg"),
      NoteTrack([Command(Start(None)), Command(GogoStart),
                 Notes([Some(Don), Some(Don), None, None]), EndMeasure,
                 Notes([Some(Don), Some(Don), None, None]), EndMeasure,
                 Notes([Some(Kat)]), EndMeasure, EndMeasure])]))
  {
    var none: string := [];
    ItemListLayout(s, none);
    ItemListItems();
    ItemListValid();
    FileOfRows(ItemListRows(), none);
  }

  lemma ItemListErrorExample(s: string)
    requires s == "TITLE: POP TEAM EPIC\n" + ("BPM:142\n" + ("\n" + ("WAVE:POP TEAM EPIC.ogg\n" + ("\n" + ("\n"
      + ("#START\n" + ("\n" + ("#GOGOSTART" + (" oops this value shouldnt exist\n" + ("\n" + ("1100,\n" + ("1100,\n"
      + ("2,\n" + (",\n" + ("\n" + "#END\n")))))))))))))))
    ensures TjaFile(s).None?
  {
    var r := "\n" + ("1100,\n" + ("1100,\n" + ("2,\n" + (",\n" + ("\n" + "#END\n")))));
    var arg := " oops this value shouldnt exist\n" + r;
    var x := "#START" + (PlayerText(None) + ("\n" + ("\n" + (CommandText(GogoStart) + arg))));
    assert CommandText(GogoStart) == "#GOGOSTART";
    StartLine("\n" + (CommandText(GogoStart) + arg));
    PreambleText([], x);
    NothingAfter(Preamble);
    PreambleValid([]);
    assert LinesText([], "\n" + (CommandText(GogoStart) + arg)) == "\n" + (CommandText(GogoStart) + arg);
    FileRejectsCommandArgument(Preamble, None, [], "\n", GogoStart, arg);
  }

  // `parse_tja_file` on a complete chart, and on the same chart with its
  // title line commented out

  const Seven: seq<Option<NoteType>> := [Some(Unmapped('7'))]
  const Nine: seq<Option<NoteType>> := [Some(Unmapped('9'))]

  lemma SevenChunk(t: string)
    ensures LineThen(NotesLine(Seven, true), t) == "7,\n" + t
    ensures ValidLine(NotesLine(Seven, true))
  {
    assert NotesText(Seven) == "7";
    Assoc3(NotesText(Seven), ",", "\n", t);
    assert NotesText(Seven) + "," + "\n" == "7,\n";
  }

  lemma NineChunk(t: string)
    ensures LineThen(NotesLine(Nine, true), t) == "9,\n" + t
    ensures ValidLine(NotesLine(Nine, true))
  {
    assert NotesText(Nine) == "9";
    Assoc3(NotesText(Nine), ",", "\n", t);
    assert NotesText(Nine) + "," + "\n" == "9,\n";
  }

  /** The last four lines of the complete chart's track. */
  function FullTailLines(): seq<BodyLine> {
    [NotesLine(Seven, true), CommaLine, NotesLine(Nine, true), BlankLine]
  }

  function FullLines(): seq<BodyLine> {
    [BlankLine, NotesLine(Dd, true), NotesLine(Dd, true), NotesLine(KatOnly, true)] + FullTailLines()
  }

  lemma FullTailText(y: string)
    ensures BodyText(FullTailLines(), y) == "7,\n" + (",\n" + ("9,\n" + ("\n" + ("#END" + y))))
    ensures ValidLines(FullTailLines())
  {
    var t0 := "#END" + y;
    PrependLine(BlankLine, [], y, t0);
    PrependLine(NotesLine(Nine, true), [BlankLine], y, "\n" + t0);
    NineChunk("\n" + t0);
    PrependLine(CommaLine, [NotesLine(Nine, true), BlankLine], y, "9,\n" + ("\n" + t0));
    PrependLine(NotesLine(Seven, true), [CommaLine, NotesLine(Nine, true), BlankLine], y, ",\n" + ("9,\n" + ("\n" + t0)));
    SevenChunk(",\n" + ("9,\n" + ("\n" + t0)));
  }

  lemma FullText(ms: seq<BodyLine>, y: string)
    ensures BodyText([BlankLine, NotesLine(Dd, true), NotesLine(Dd, true), NotesLine(KatOnly, true)] + ms, y)
            == "\n" + ("1100,\n" + ("1100,\n" + ("2,\n" + BodyText(ms, y))))
  {
    var t0 := BodyText(ms, y);
    var l3 := [NotesLine(KatOnly, true)] + ms;
    var l2 := [NotesLine(Dd, true)] + l3;
    var l1 := [NotesLine(Dd, true)] + l2;
    PrependLine(NotesLine(KatOnly, true), ms, y, t0);
    KatChunk(t0);
    PrependLine(NotesLine(Dd, true), l3, y, "2,\n" + t0);
    DdChunk("2,\n" + t0);
    PrependLine(NotesLine(Dd, true), l2, y, "1100,\n" + ("2,\n" + t0));
    DdChunk("1100,\n" + ("2,\n" + t0));
    PrependLine(BlankLine, l1, y, "1100,\n" + ("1100,\n" + ("2,\n" + t0)));
    assert [BlankLine, NotesLine(Dd, true), NotesLine(Dd, true), NotesLine(KatOnly, true)] + ms == [BlankLine] + l1;
  }

  lemma FullValid()
    ensures ValidLines(FullLines())
  {
    FullTailText([]);
    var ms := FullTailLines();
    var l3 := [NotesLine(KatOnly, true)] + ms;
    var l2 := [NotesLine(Dd, true)] + l3;
    var l1 := [NotesLine(Dd, true)] + l2;
    NotesTexts();
    ValidLinesCons(NotesLine(KatOnly, true), ms);
    ValidLinesCons(NotesLine(Dd, true), l3);
    ValidLinesCons(NotesLine(Dd, true), l2);
    ValidLinesCons(BlankLine, l1);
    assert FullLines() == [BlankLine] + l1;
  }

  const Balloon := MetadataRow("BALLOON", "", "10,20")
  const Course := MetadataRow("COURSE", "", "Easy")
  const Level := MetadataRow("LEVEL", "", "1")

  lemma MoreChunks(t: string)
    ensures RowThen(Balloon, t) == "BALLOON:10,20\n" + t
    ensures RowThen(Course, t) == "COURSE:Easy\n" + t
    ensures RowThen(Level, t) == "LEVEL:1\n" + t
  {
  }

  lemma MoreValid()
    ensures ValidRow(Balloon) && ValidRow(Course) && ValidRow(Level)
  {
  }

  /** The rows of the complete chart after its title line. */
  function FullRows(): seq<FileRow> {
    [Bpm, Wave, BlankRow, BlankRow] + ([Balloon, Course, Level, BlankRow] + [TrackRows(None, FullLines())])
  }

  lemma FullRowsTextA(rest: seq<FileRow>, more: string)
    ensures RowsText([Bpm, Wave, BlankRow, BlankRow] + rest, more)
            == "BPM:142\n" + ("WAVE:POP TEAM EPIC.ogg\n" + ("\n" + ("\n" + RowsText(rest, more))))
  {
    var t := RowsText(rest, more);
    var r3 := [BlankRow] + rest;
    var r2 := [BlankRow] + r3;
    var r1 := [Wave] + r2;
    RowsCons(BlankRow, rest, more);
    RowsCons(BlankRow, r3, more);
    RowsCons(Wave, r2, more);
    WaveChunk("\n" + ("\n" + t));
    RowsCons(Bpm, r1, more);
    BpmChunk("WAVE:POP TEAM EPIC.ogg\n" + ("\n" + ("\n" + t)));
    assert [Bpm, Wave, BlankRow, BlankRow] + rest == [Bpm] + r1;
  }

  lemma FullRowsTextB(rest: seq<FileRow>, more: string)
    ensures RowsText([Balloon, Course, Level, BlankRow] + rest, more)
            == "BALLOON:10,20\n" + ("COURSE:Easy\n" + ("LEVEL:1\n" + ("\n" + RowsText(rest, more))))
  {
    var t := RowsText(rest, more);
    var r3 := [BlankRow] + rest;
    var r2 := [Level] + r3;
    var r1 := [Course] + r2;
    RowsCons(BlankRow, rest, more);
    RowsCons(Level, r3, more);
    MoreChunks("\n" + t);
    RowsCons(Course, r2, more);
    MoreChunks("LEVEL:1\n" + ("\n" + t));
    RowsCons(Balloon, r1, more);
    MoreChunks("COURSE:Easy\n" + ("LEVEL:1\n" + ("\n" + t)));
    assert [Balloon, Course, Level, BlankRow] + rest == [Balloon] + r1;
  }

  lemma FourRows(a: FileRow, b: FileRow, c: FileRow, d: FileRow, rest: seq<FileRow>)
    ensures [a, b, c, d] + rest == [a] + ([b] + ([c] + ([d] + rest)))
  {
  }

  /** The items of four rows in front of `rest`. */
  lemma FourRowsItems(a: FileRow, b: FileRow, c: FileRow, d: FileRow, rest: seq<FileRow>)
    ensures RowsItems([a, b, c, d] + rest)
            == RowItems(a) + (RowItems(b) + (RowItems(c) + (RowItems(d) + RowsItems(rest))))
  {
    FourRows(a, b, c, d, rest);
    RowsItemsCons(d, rest);
    RowsItemsCons(c, [d] + rest);
    RowsItemsCons(b, [c] + ([d] + rest));
    RowsItemsCons(a, [b] + ([c] + ([d] + rest)));
  }

  lemma TwoThenBlanks(x: TJAFileItem, y: TJAFileItem, r: seq<TJAFileItem>)
    ensures [x] + ([y] + ([] + ([] + r))) == [x, y] + r
  {
  }

  lemma ThreeThenBlank(x: TJAFileItem, y: TJAFileItem, z: TJAFileItem, r: seq<TJAFileItem>)
    ensures [x] + ([y] + ([z] + ([] + r))) == [x, y, z] + r
  {
  }

  lemma FullItemsA(rest: seq<FileRow>)
    ensures RowsItems([Bpm, Wave, BlankRow, BlankRow] + rest)
            == [Metadata("BPM", "142"), Metadata("WAVE", "POP TEAM EPIC.ogg")] + RowsItems(rest)
  {
    FourRowsItems(Bpm, Wave, BlankRow, BlankRow, rest);
    TwoThenBlanks(Metadata("BPM", "142"), Metadata("WAVE", "POP TEAM EPIC.ogg"), RowsItems(rest));
  }

  lemma FullItemsB(rest: seq<FileRow>)
    ensures RowsItems([Balloon, Course, Level, BlankRow] + rest)
            == [Metadata("BALLOON", "10,20"), Metadata("COURSE", "Easy"), Metadata("LEVEL", "1")] + RowsItems(rest)
  {
    FourRowsItems(Balloon, Course, Level, BlankRow, rest);
    ThreeThenBlank(Metadata("BALLOON", "10,20"), Metadata("COURSE", "Easy"), Metadata("LEVEL", "1"), RowsItems(rest));
  }

  /** The items of the complete chart after its title line. */
  lemma FullRowsItems()
    ensures RowsItems(FullRows()) == FullTailItems()
  {
    var track := TrackRows(None, FullLines());
    FullItemsB([track]);
    FullItemsA([Balloon, Course, Level, BlankRow] + [track]);
    RowsItemsCons(track, []);
    NothingAfter(RowItems(track));
  }

  lemma FullRowsValid()
    ensures ValidRows(FullRows())
  {
    var track := TrackRows(None, FullLines());
    FullValid();
    BpmValid();
    WaveValid();
    MoreValid();
    var b3 := [BlankRow] + [track];
    var b2 := [Level] + b3;
    var b1 := [Course] + b2;
    var b0 := [Balloon] + b1;
    var a3 := [BlankRow] + b0;
    var a2 := [BlankRow] + a3;
    var a1 := [Wave] + a2;
    ValidRowsCons(track, []);
    ValidRowsCons(BlankRow, [track]);
    ValidRowsCons(Level, b3);
    ValidRowsCons(Course, b2);
    ValidRowsCons(Balloon, b1);
    ValidRowsCons(BlankRow, b0);
    ValidRowsCons(BlankRow, a3);
    ValidRowsCons(Wave, a2);
    ValidRowsCons(Bpm, a1);
    assert FullRows() == [Bpm] + a1;
  }

  lemma FullLayout(s: string, none: string)
    requires none == []
    requires s == "TITLE: POP TEAM EPIC\n" + ("BPM:142\n" + ("WAVE:POP TEAM EPIC.ogg\n" + ("\n" + ("\n"
      + ("BALLOON:10,20\n" + ("COURSE:Easy\n" + ("LEVEL:1\n" + ("\n" + ("#START\n" + ("\n" + ("1100,\n"
      + ("1100,\n" + ("2,\n" + ("7,\n" + (",\n" + ("9,\n" + ("\n" + "#END\n")))))))))))))))))
    ensures s == "TITLE: POP TEAM EPIC\n" + RowsText(FullRows(), none)
  {
    var y := "\n" + none;
    assert "#END" + y == "#END\n";
    FullTailText(y);
    FullText(FullTailLines(), y);
    var track := TrackRows(None, FullLines());
    TrackRowText(FullLines(), none);
    FullRowsTextB([track], none);
    FullRowsTextA([Balloon, Course, Level, BlankRow] + [track], none);
  }

  lemma NoSlashJoin(a: string, b: string)
    requires '/' !in a && '/' !in b
    ensures '/' !in a + b
  {
  }

  lemma TrackNoSlash(r: string)
    requires r == "#START\n" + ("\n" + ("1100,\n" + ("1100,\n" + ("2,\n" + ("7,\n" + (",\n" + ("9,\n" + ("\n" + "#END\n"))))))))
    ensures '/' !in r
  {
    var t := "#END\n";
    NoSlashJoin("\n", t);
    t := "\n" + t;
    NoSlashJoin("9,\n", t);
    t := "9,\n" + t;
    NoSlashJoin(",\n", t);
    t := ",\n" + t;
    NoSlashJoin("7,\n", t);
    t := "7,\n" + t;
    NoSlashJoin("2,\n", t);
    t := "2,\n" + t;
    NoSlashJoin("1100,\n", t);
    t := "1100,\n" + t;
    NoSlashJoin("1100,\n", t);
    t := "1100,\n" + t;
    NoSlashJoin("\n", t);
    t := "\n" + t;
    NoSlashJoin("#START\n", t);
    t := "#START\n" + t;
  }

  lemma UpperNoSlash(s: string, r: string)
    requires '/' !in r
    requires s == "TITLE: POP TEAM EPIC\n" + ("BPM:142\n" + ("WAVE:POP TEAM EPIC.ogg\n" + ("\n" + r)))
    ensures '/' !in s
  {
    var t := r;
    NoSlashJoin("\n", t);
    t := "\n" + t;
    NoSlashJoin("WAVE:POP TEAM EPIC.ogg\n", t);
    t := "WAVE:POP TEAM EPIC.ogg\n" + t;
    NoSlashJoin("BPM:142\n", t);
    t := "BPM:142\n" + t;
    NoSlashJoin("TITLE: POP TEAM EPIC\n", t);
    t := "TITLE: POP TEAM EPIC\n" + t;
  }

  lemma LowerNoSlash(s: string, r: string)
    requires '/' !in r
    requires s == "\n" + ("BALLOON:10,20\n" + ("COURSE:Easy\n" + ("LEVEL:1\n" + ("\n" + r))))
    ensures '/' !in s
  {
    var t := r;
    NoSlashJoin("\n", t);
    t := "\n" + t;
    NoSlashJoin("LEVEL:1\n", t);
    t := "LEVEL:1\n" + t;
    NoSlashJoin("COURSE:Easy\n", t);
    t := "COURSE:Easy\n" + t;
    NoSlashJoin("BALLOON:10,20\n", t);
    t := "BALLOON:10,20\n" + t;
    NoSlashJoin("\n", t);
    t := "\n" + t;
  }

  lemma FullNoSlash(s: string)
    requires s == "TITLE: POP TEAM EPIC\n" + ("BPM:142\n" + ("WAVE:POP TEAM EPIC.ogg\n" + ("\n" + ("\n" + ("BALLOON:10,20\n" + ("COURSE:Easy\n" + ("LEVEL:1\n" + ("\n" + ("#START\n" + ("\n" + ("1100,\n" + ("1100,\n" + ("2,\n" + ("7,\n" + (",\n" + ("9,\n" + ("\n" + "#END\n")))))))))))))))))
    ensures '/' !in s
  {
    var r := "#START\n" + ("\n" + ("1100,\n" + ("1100,\n" + ("2,\n" + ("7,\n" + (",\n" + ("9,\n" + ("\n" + "#END\n"))))))));
    var u := "\n" + ("BALLOON:10,20\n" + ("COURSE:Easy\n" + ("LEVEL:1\n" + ("\n" + r))));
    TrackNoSlash(r);
    LowerNoSlash(u, r);
    UpperNoSlash(s, u);
  }

  /** The items of the complete chart after its title line. */
  function FullTailItems(): seq<TJAFileItem> {
    [Metadata("BPM", "142"), Metadata("WAVE", "POP TEAM EPIC.ogg")]
    + [Metadata("BALLOON", "10,20"), Metadata("COURSE", "Easy"), Metadata("LEVEL", "1"),
       NoteTrack([Command(Start(None))] + BodyEntries(FullLines()))]
  }

  lemma FullAllText(t: string, none: string)
    requires t == "TITLE: POP TEAM EPIC\n" + RowsText(FullRows(), none)
    ensures t == RowsText([Title] + FullRows(), none)
  {
    RowsCons(Title, FullRows(), none);
    TitleChunk(RowsText(FullRows(), none));
  }

  lemma FullAllValid()
    ensures ValidRows([Title] + FullRows())
  {
    FullRowsValid();
    TitleValid();
    ValidRowsCons(Title, FullRows());
  }

  lemma FullAllItems()
    ensures RowsItems([Title] + FullRows()) == [Metadata("TITLE", "POP TEAM EPIC")] + FullTailItems()
  {
    RowsItemsCons(Title, FullRows());
    FullRowsItems();
  }

  lemma FullFile(t: string, none: string)
    requires none == []
    requires t == "TITLE: POP TEAM EPIC\n" + RowsText(FullRows(), none)
    ensures TjaFile(t) == Some(Parsed([], [Metadata("TITLE", "POP TEAM EPIC")] + FullTailItems()))
  {
    FullAllText(t, none);
    FullAllValid();
    FullAllItems();
    FileOfRows([Title] + FullRows(), none);
  }

  lemma InFrontOfTwo(x: TJAFileItem, y: TJAFileItem, z: TJAFileItem, more: seq<TJAFileItem>)
    ensures [x] + ([y, z] + more) == [x, y, z] + more
  {
  }

  /** The song of items that declare TITLE, BPM and WAVE first and never
      again: it has those three values. */
  lemma SongOfRequiredFirst(t: string, b: string, w: string, more: seq<TJAFileItem>)
    requires forall i :: 0 <= i < |more| && more[i].Metadata? ==> more[i].key !in RequiredMetadata
    ensures SongOf([Metadata("TITLE", t), Metadata("BPM", b), Metadata("WAVE", w)] + more).Success?
    ensures SongOf([Metadata("TITLE", t), Metadata("BPM", b), Metadata("WAVE", w)] + more).value.title == t
    ensures SongOf([Metadata("TITLE", t), Metadata("BPM", b), Metadata("WAVE", w)] + more).value.bpm == b
    ensures SongOf([Metadata("TITLE", t), Metadata("BPM", b), Metadata("WAVE", w)] + more).value.wave == w
  {
    var items := [Metadata("TITLE", t), Metadata("BPM", b), Metadata("WAVE", w)] + more;
    forall j | 3 <= j < |items|
      ensures items[j] == more[j - 3]
    {
    }
    HeaderLastWriterWins(items, 0);
    HeaderLastWriterWins(items, 1);
    HeaderLastWriterWins(items, 2);
  }

  lemma FullSong()
    ensures SongOf([Metadata("TITLE", "POP TEAM EPIC")] + FullTailItems()).Success?
    ensures SongOf([Metadata("TITLE", "POP TEAM EPIC")] + FullTailItems()).value.title == "POP TEAM EPIC"
    ensures SongOf([Metadata("TITLE", "POP TEAM EPIC")] + FullTailItems()).value.bpm == "142"
    ensures SongOf([Metadata("TITLE", "POP TEAM EPIC")] + FullTailItems()).value.wave == "POP TEAM EPIC.ogg"
  {
    var more := [Metadata("BALLOON", "10,20"), Metadata("COURSE", "Easy"), Metadata("LEVEL", "1"),
                 NoteTrack([Command(Start(None))] + BodyEntries(FullLines()))];
    InFrontOfTwo(Metadata("TITLE", "POP TEAM EPIC"), Metadata("BPM", "142"), Metadata("WAVE", "POP TEAM EPIC.ogg"), more);
    SongOfRequiredFirst("POP TEAM EPIC", "142", "POP TEAM EPIC.ogg", more);
  }

  lemma FullExample(s: string)
    requires s == "TITLE: POP TEAM EPIC\n" + ("BPM:142\n" + ("WAVE:POP TEAM EPIC.ogg\n" + ("\n" + ("\n"
      + ("BALLOON:10,20\n" + ("COURSE:Easy\n" + ("LEVEL:1\n" + ("\n" + ("#START\n" + ("\n" + ("1100,\n"
      + ("1100,\n" + ("2,\n" + ("7,\n" + (",\n" + ("9,\n" + ("\n" + "#END\n")))))))))))))))))
    ensures ParseTjaFile(s).Success?
    ensures ParseTjaFile(s).value.title == "POP TEAM EPIC"
    ensures ParseTjaFile(s).value.bpm == "142"
    ensures ParseTjaFile(s).value.wave == "POP TEAM EPIC.ogg"
  {
    var none: string := [];
    FullLayout(s, none);
    FullNoSlash(s);
    NoSlashNoComment(s);
    PreprocessCommentFree(s);
    FullFile(s, none);
    FullSong();
  }

  /** The complete chart with its title line commented out, from its first
      line break on. */
  lemma TitleCommentedOut(r: string)
    requires '/' !in "\n" + r
    ensures PreprocessTjaFile("//" + ("TITLE: POP TEAM EPIC\n" + r)) == "\n" + r
  {
    var title := "TITLE: POP TEAM EPIC";
    assert "//" + ("TITLE: POP TEAM EPIC\n" + r) == "//" + title + ("\n" + r);
    CommentRemoved(title, "\n" + r);
    NoSlashNoComment("\n" + r);
    PreprocessCommentFree("\n" + r);
  }

  lemma NoTitleItems(t: string, none: string)
    requires none == []
    requires t == "\n" + RowsText(FullRows(), none)
    ensures TjaFile(t) == Some(Parsed([], FullTailItems()))
  {
    RowsCons(BlankRow, FullRows(), none);
    FullRowsValid();
    ValidRowsCons(BlankRow, FullRows());
    FileOfRows([BlankRow] + FullRows(), none);
    RowsItemsCons(BlankRow, FullRows());
    FullRowsItems();
    NothingInFront(RowsItems(FullRows()));
  }

  /** Items without a TITLE item make no song, and TITLE is the key
      reported missing. */
  lemma TitleMissing(items: seq<TJAFileItem>)
    requires forall i :: 0 <= i < |items| && items[i].Metadata? ==> items[i].key != "TITLE"
    ensures SongOf(items) == Failure(MetadataNeeded("TITLE"))
  {
  }

  lemma TailSong(es: seq<NoteTrackEntry>)
    ensures SongOf([Metadata("BPM", "142"), Metadata("WAVE", "POP TEAM EPIC.ogg")]
                   + [Metadata("BALLOON", "10,20"), Metadata("COURSE", "Easy"), Metadata("LEVEL", "1"), NoteTrack(es)])
            == Failure(MetadataNeeded("TITLE"))
  {
    var items := [Metadata("BPM", "142"), Metadata("WAVE", "POP TEAM EPIC.ogg")]
                 + [Metadata("BALLOON", "10,20"), Metadata("COURSE", "Easy"), Metadata("LEVEL", "1"), NoteTrack(es)];
    assert items == [Metadata("BPM", "142"), Metadata("WAVE", "POP TEAM EPIC.ogg"),
                     Metadata("BALLOON", "10,20"), Metadata("COURSE", "Easy"), Metadata("LEVEL", "1"), NoteTrack(es)];
    TitleMissing(items);
  }

  lemma FullTailSong()
    ensures SongOf(FullTailItems()) == Failure(MetadataNeeded("TITLE"))
  {
    TailSong([Command(Start(None))] + BodyEntries(FullLines()));
  }

  lemma NoTitleExample(s: string)
    requires s == "TITLE: POP TEAM EPIC\n" + ("BPM:142\n" + ("WAVE:POP TEAM EPIC.ogg\n" + ("\n" + ("\n"
      + ("BALLOON:10,20\n" + ("COURSE:Easy\n" + ("LEVEL:1\n" + ("\n" + ("#START\n" + ("\n" + ("1100,\n"
      + ("1100,\n" + ("2,\n" + ("7,\n" + (",\n" + ("9,\n" + ("\n" + "#END\n")))))))))))))))))
    ensures ParseTjaFile("//" + s) == Failure(MetadataNeeded("TITLE"))
  {
    var none: string := [];
    var r := RowsText(FullRows(), none);
    FullLayout(s, none);
    FullNoSlash(s);
    TitleCommentedOut(r);
    NoTitleItems("\n" + r, none);
    FullTailSong();
  }

  // `tja_file` on a track holding a `#MEASURE` command, followed by a blank
  // line

  const FiveFour := CommandLine(Measure(5, 4))

  lemma FiveFourChunk(t: string)
    ensures LineThen(FiveFour, t) == "#MEASURE 5/4\n" + t
    ensures ValidLine(FiveFour)
  {
    assert NatText(5) == "5" && NatText(4) == "4";
  }

  lemma MeasureCommandLayout(s: string, w: string)
    requires w == "\n"
    requires s == "#START\n" + ("#MEASURE 5/4\n" + ("#END\n" + "\n"))
    ensures s == RowsText([TrackRows(None, [FiveFour])], w)
  {
    var y := "\n" + w;
    assert "#END" + y == "#END\n" + "\n";
    PrependLine(FiveFour, [], y, "#END" + y);
    FiveFourChunk("#END" + y);
    TrackRowText([FiveFour], w);
  }

  lemma MeasureCommandItems()
    ensures RowsItems([TrackRows(None, [FiveFour])]) == [NoteTrack([Command(Start(None)), Command(Measure(5, 4))])]
  {
    var track := TrackRows(None, [FiveFour]);
    NothingAfter([FiveFour]);
    EntriesCons(FiveFour, []);
    NothingAfter(LineEntries(FiveFour));
    NothingAfter([track]);
    RowsItemsCons(track, []);
    NothingAfter(RowItems(track));
    assert BodyEntries([FiveFour]) == [Command(Measure(5, 4))];
    assert [Command(Start(None))] + BodyEntries([FiveFour]) == [Command(Start(None)), Command(Measure(5, 4))];
  }

  lemma MeasureCommandValid()
    ensures ValidRows([TrackRows(None, [FiveFour])])
  {
    FiveFourChunk([]);
    ValidLinesCons(FiveFour, []);
    ValidRowsCons(TrackRows(None, [FiveFour]), []);
  }

  lemma MeasureCommandExample(s: string)
    requires s == "#START\n" + ("#MEASURE 5/4\n" + ("#END\n" + "\n"))
    ensures TjaFile(s) == Some(Parsed("", [NoteTrack([Command(Start(None)), Command(Measure(5, 4))])]))
  {
    var w := "\n";
    MeasureCommandLayout(s, w);
    MeasureCommandItems();
    MeasureCommandValid();
    FileOfRows([TrackRows(None, [FiveFour])], w);
  }
}
