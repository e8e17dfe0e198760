/** The assertions of the parser's test suite, each derived from the general
    laws. Every lemma fixes its input text in a precondition and states what
    the combinator returns on it. */
module TjaExamples {
  import opened Wrappers
  import opened TjaTypes
  import opened TjaLexer
  import opened TjaParser
  import opened TjaText
  import opened TjaLaws
  import opened TjaLayout

  // `metadata_tagname`

  lemma TagnameOfTitle(s: string)
    requires s == "TITLE:さいたま2000"
    ensures MetadataTagname(s) == Some(Parsed(":さいたま2000", "TITLE"))
  {
    assert s == "TITLE" + (":" + "さいたま2000");
    MetadataTagnameOf("TITLE", "さいたま2000");
  }

  lemma TagnameWithDigit(s: string)
    requires s == "EXAM1:something"
    ensures MetadataTagname(s) == Some(Parsed(":something", "EXAM1"))
  {
    assert s == "EXAM1" + (":" + "something");
    MetadataTagnameOf("EXAM1", "something");
  }

  // `metadata_pair`

  lemma PairEndingInNewline(s: string)
    requires s == "TITLE:さいたま2000\n"
    ensures MetadataPair(s) == Some(Parsed("", ("TITLE", "さいたま2000")))
  {
    assert s == "TITLE" + (":" + ("さいたま2000" + ("\n" + "")));
    MetadataLineOf("TITLE", "さいたま2000", "\n", "");
  }

  lemma PairEndingInCrLf(s: string)
    requires s == "TITLE:POP TEAM EPIC\r\n"
    ensures MetadataPair(s) == Some(Parsed("", ("TITLE", "POP TEAM EPIC")))
  {
    assert s == "TITLE" + (":" + ("POP TEAM EPIC" + ("\r\n" + "")));
    MetadataLineOf("TITLE", "POP TEAM EPIC", "\r\n", "");
  }

  lemma PairEndingInEof(s: string)
    requires s == "EXAM1:something"
    ensures MetadataPair(s) == Some(Parsed("", ("EXAM1", "something")))
  {
    assert s == "EXAM1" + (":" + ("something" + ([] + [])));
    MetadataLineOf("EXAM1", "something", [], []);
  }

  lemma PairWithEmptyValue(s: string)
    requires s == "EMPTY:"
    ensures MetadataPair(s) == Some(Parsed("", ("EMPTY", "")))
  {
    assert s == "EMPTY" + (":" + ([] + ([] + [])));
    MetadataLineOf("EMPTY", [], [], []);
  }

  // `end_command`

  lemma EndOnItsLine(s: string)
    requires s == "\n#END\n"
    ensures EndCommand(s).Some?
  {
    assert s == "\n" + ("#END" + ("\n" + ""));
    EndCommandOf("\n", "\n", "");
  }

  lemma EndWithPlayer(s: string)
    requires s == "\n#END P1"
    ensures EndCommand(s).None?
  {
    assert s == "\n" + ("#END" + " P1");
    EndCommandRejectsTrailing("\n", " P1");
  }

  // `start_command`

  lemma StartForPlayer2(s: string)
    requires s == "\n#START P2\nsomethingsomething"
    ensures StartCommand(s) == Some(Parsed("somethingsomething", Start(Some(Player2))))
  {
    assert s == "\n" + ("#START" + (PlayerText(Some(Player2)) + ("\n" + "somethingsomething")));
    StartCommandOf("\n", Some(Player2), "\n", "somethingsomething");
  }

  lemma StartForPlayer1(s: string)
    requires s == "\n#START P1\nsomethingsomething"
    ensures StartCommand(s) == Some(Parsed("somethingsomething", Start(Some(Player1))))
  {
    assert s == "\n" + ("#START" + (PlayerText(Some(Player1)) + ("\n" + "somethingsomething")));
    StartCommandOf("\n", Some(Player1), "\n", "somethingsomething");
  }

  lemma StartAtEof(s: string)
    requires s == "#START"
    ensures StartCommand(s) == Some(Parsed("", Start(None)))
  {
    assert s == [] + ("#START" + (PlayerText(None) + ([] + [])));
    StartCommandOf([], None, [], []);
  }

  lemma StartWithTrailingBlank(s: string)
    requires s == "#START "
    ensures StartCommand(s).None?
  {
    assert s == [] + ("#START" + (PlayerText(None) + " "));
    StartCommandRejectsTrailing([], None, " ");
  }

  lemma StartRejectsEnd(s: string)
    requires s == "#END"
    ensures StartCommand(s).None?
  {
    SkipNone(IsWhitespace, s);
    assert s[1] == 'E';
    StartCommandNeedsKeyword(s);
  }

  lemma StartForPlayer3(s: string)
    requires s == "#START P3"
    ensures StartCommand(s).None?
  {
    var x := " P3";
    assert s == [] + ("#START" + (PlayerText(None) + x));
    assert x[2] == '3';
    StartCommandRejectsTrailing([], None, x);
  }

  // `inner_track_command`

  lemma GogoStartAlone(s: string)
    requires s == "#GOGOSTART"
    ensures InnerTrackCommand(s) == Some(Parsed("", GogoStart))
  {
    assert s == CommandText(GogoStart) + ([] + []);
    InnerTrackCommandOf(GogoStart, [], []);
  }

  lemma GogoStartWithArgument(s: string)
    requires s == "#GOGOSTART testvalue"
    ensures InnerTrackCommand(s).None?
  {
    assert s == CommandText(GogoStart) + " testvalue";
    InnerTrackCommandRejectsArgument(GogoStart, " testvalue");
  }

  // `notes`

  lemma NotesOfMeasure(s: string)
    requires s == "10201120,\n"
    ensures NoteGroup(s) == Some(Parsed(",\n", [Some(Don), None, Some(Kat), None, Some(Don), Some(Don), Some(Kat), None]))
  {
    var ns := [Some(Don), None, Some(Kat), None, Some(Don), Some(Don), Some(Kat), None];
    assert s == NotesText(ns) + ",\n";
    NoteGroupOf(ns, ",\n");
  }
}
