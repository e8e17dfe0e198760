/** The TJA chart grammar: nom-style combinators from the input text to the
    unconsumed rest and the value recognised, or to a failure. */
module TjaParser {
  import opened Wrappers
  import opened TjaTypes
  import opened TjaLexer

  /** `metadata_tagname`: the upper-case tag in front of a colon. The colon
      itself is left in the input. */
  function MetadataTagname(s: string): (r: Option<Parsed<string>>)
    ensures r.Some? ==> ValidTag(r.value.value) && s == r.value.value + r.value.rest
    ensures r.Some? ==> |r.value.rest| > 0 && r.value.rest[0] == ':'
  {
    var n := Span(IsTagChar, s);
    if 0 < n < |s| && s[n] == ':' then
      assert s == s[..n] + s[n..];
      Some(Parsed(s[n..], s[..n]))
    else None
  }

  /** The characters before the line ending, after the blanks, form a
      value. */
  lemma LineValue(v: string, n: nat)
    requires v == [] || !IsSpace(v[0])
    requires n <= |v| && forall i :: 0 <= i < n ==> IsLineChar(v[i])
    ensures ValidValue(v[..n])
  {
  }

  /** The value of a metadata line: blanks skipped, then everything up to
      the line ending, which is consumed. */
  function MetadataValue(s: string): (r: Option<Parsed<string>>)
    ensures r.Some? ==> ValidValue(r.value.value) && IsSuffix(r.value.rest, s)
  {
    var v := SkipWhile(IsSpace, s);
    var n := Span(IsLineChar, v);
    match LineEndOrEof(v[n..])
    case None => None
    case Some(rest) =>
      LineValue(v, n);
      SuffixTransitive(rest, v[n..], v);
      SuffixTransitive(rest, v, s);
      Some(Parsed(rest, v[..n]))
  }

  /** `metadata_pair`: `TAG:value` up to the end of the line or of the input.
      The blanks after the colon are skipped, the line ending (`\n` or
      `\r\n`) is consumed and is not part of the value. */
  function MetadataPair(s: string): (r: Option<Parsed<(string, string)>>)
    ensures r.Some? ==> ValidTag(r.value.value.0) && ValidValue(r.value.value.1)
    ensures r.Some? ==> IsSuffix(r.value.rest, s) && |r.value.rest| < |s|
  {
    match MetadataTagname(s)
    case None => None
    case Some(tag) =>
      match MetadataValue(tag.rest[1..])
      case None => None
      case Some(value) =>
        SuffixTransitive(value.rest, tag.rest[1..], s);
        Some(Parsed(value.rest, (tag.value, value.value)))
  }

  /** The optional ` P1` or ` P2` after `#START`. */
  function PlayerDesignator(s: string): (r: Parsed<Option<Player>>)
    ensures IsSuffix(r.rest, s)
  {
    if " P1" <= s then Parsed(s[3..], Some(Player1))
    else if " P2" <= s then Parsed(s[3..], Some(Player2))
    else Parsed(s, None)
  }

  /** The rest of a command line must be empty: the command `c` is
      recognised only if a line ending or the end of input follows. */
  function CommandLine(c: TrackCommand, s: string): (r: Option<Parsed<TrackCommand>>)
    ensures r.Some? ==> r.value.value == c && IsSuffix(r.value.rest, s)
  {
    match LineEndOrEof(s)
    case None => None
    case Some(rest) => Some(Parsed(rest, c))
  }

  /** `start_command`: `#START`, optionally ` P1` or ` P2`, then the end of
      the line; blank lines before it are skipped. */
  function StartCommand(s: string): (r: Option<Parsed<TrackCommand>>)
    ensures r.Some? ==> r.value.value.Start? && IsSuffix(r.value.rest, s) && |r.value.rest| < |s|
  {
    var t := SkipWhile(IsWhitespace, s);
    match Keyword("#START", t)
    case None => None
    case Some(afterKeyword) =>
      var player := PlayerDesignator(afterKeyword);
      match CommandLine(Start(player.value), player.rest)
      case None => None
      case Some(line) =>
        SuffixTransitive(player.rest, afterKeyword, t);
        SuffixTransitive(line.rest, player.rest, t);
        SuffixTransitive(line.rest, t, s);
        Some(line)
  }

  /** `end_command`: `#END` and then the end of the line; blank lines before
      it are skipped. */
  function EndCommand(s: string): (r: Option<Parsed<TrackCommand>>)
    ensures r.Some? ==> r.value.value == End && IsSuffix(r.value.rest, s) && |r.value.rest| < |s|
  {
    var t := SkipWhile(IsWhitespace, s);
    match Keyword("#END", t)
    case None => None
    case Some(afterKeyword) =>
      match CommandLine(End, afterKeyword)
      case None => None
      case Some(line) =>
        SuffixTransitive(line.rest, afterKeyword, t);
        SuffixTransitive(line.rest, t, s);
        Some(line)
  }

  /** The `a/b` of `#MEASURE a/b`: two positive decimal numbers. */
  function MeasureArguments(s: string): (r: Option<Parsed<TrackCommand>>)
    ensures r.Some? ==> IsInnerCommand(r.value.value) && r.value.value.Measure?
    ensures r.Some? ==> IsSuffix(r.value.rest, s) && |r.value.rest| < |s|
  {
    match Number(s)
    case None => None
    case Some(numerator) =>
      match Keyword("/", numerator.rest)
      case None => None
      case Some(afterSlash) =>
        match Number(afterSlash)
        case None => None
        case Some(denominator) =>
          if numerator.value > 0 && denominator.value > 0 then
            SuffixTransitive(denominator.rest, afterSlash, numerator.rest);
            SuffixTransitive(denominator.rest, numerator.rest, s);
            Some(Parsed(denominator.rest, Measure(numerator.value, denominator.value)))
          else None
  }

  /** `#MEASURE a/b` alone on its line. */
  function MeasureCommand(s: string): (r: Option<Parsed<TrackCommand>>)
    ensures r.Some? ==> IsInnerCommand(r.value.value)
    ensures r.Some? ==> IsSuffix(r.value.rest, s) && |r.value.rest| < |s|
  {
    match Keyword("#MEASURE ", s)
    case None => None
    case Some(t) =>
      match MeasureArguments(t)
      case None => None
      case Some(m) =>
        match CommandLine(m.value, m.rest)
        case None => None
        case Some(line) =>
          SuffixTransitive(line.rest, m.rest, t);
          SuffixTransitive(line.rest, t, s);
          Some(line)
  }

  /** `inner_track_command`: a command allowed inside a note track, written
      exactly, with nothing else on its line. */
  function InnerTrackCommand(s: string): (r: Option<Parsed<TrackCommand>>)
    ensures r.Some? ==> IsInnerCommand(r.value.value)
    ensures r.Some? ==> IsSuffix(r.value.rest, s) && |r.value.rest| < |s|
    ensures r.Some? ==> |s| > 0 && s[0] == '#'
  {
    match Keyword("#GOGOSTART", s)
    case Some(t) => CommandLine(GogoStart, t)
    case None =>
      match Keyword("#GOGOEND", s)
      case Some(t) => CommandLine(GogoEnd, t)
      case None => MeasureCommand(s)
  }

  /** The note a chart digit stands for; `0` is a rest. */
  function NoteOfDigit(c: char): (n: Option<NoteType>)
    requires IsDigit(c)
    ensures n.Some? ==> ValidNote(n.value)
    ensures n.None? <==> c == '0'
  {
    if c == '0' then None
    else if c == '1' then Some(Don)
    else if c == '2' then Some(Kat)
    else Some(Unmapped(c))
  }

  /** `notes`: a run of digits, one note slot per digit in the order written.
      The terminating comma is not consumed. */
  function NoteGroup(s: string): (r: Option<Parsed<seq<Option<NoteType>>>>)
    ensures r.Some? <==> |s| > 0 && IsDigit(s[0])
    ensures r.Some? ==> IsSuffix(r.value.rest, s) && (r.value.rest == [] || !IsDigit(r.value.rest[0]))
    ensures r.Some? ==> |r.value.value| == |s| - |r.value.rest|
    ensures r.Some? ==> forall i :: 0 <= i < |r.value.value| ==>
                          IsDigit(s[i]) && r.value.value[i] == NoteOfDigit(s[i])
  {
    var n := Span(IsDigit, s);
    if n == 0 then None
    else Some(Parsed(s[n..], seq(n, i requires 0 <= i < n => NoteOfDigit(s[i]))))
  }

  /** One entry of a note track, after any blank lines: an inner command,
      a group of notes, or a comma closing the measure. */
  function TrackEntry(s: string): (r: Option<Parsed<NoteTrackEntry>>)
    ensures r.Some? ==> ValidEntry(r.value.value)
    ensures r.Some? ==> IsSuffix(r.value.rest, s) && |r.value.rest| < |s|
  {
    var t := SkipWhile(IsWhitespace, s);
    match InnerTrackCommand(t)
    case Some(c) =>
      SuffixTransitive(c.rest, t, s);
      Some(Parsed(c.rest, Command(c.value)))
    case None =>
      match NoteGroup(t)
      case Some(ns) =>
        SuffixTransitive(ns.rest, t, s);
        Some(Parsed(ns.rest, Notes(ns.value)))
      case None =>
        if |t| > 0 && t[0] == ',' then
          SuffixTransitive(t[1..], t, s);
          Some(Parsed(t[1..], EndMeasure))
        else None
  }

  /** nom's `many0(TrackEntry)`: entries for as long as one is recognised. */
  function TrackEntries(s: string): (r: Parsed<seq<NoteTrackEntry>>)
    ensures IsSuffix(r.rest, s)
    ensures TrackEntry(r.rest).None?
    ensures forall e :: e in r.value ==> ValidEntry(e)
    decreases |s|
  {
    match TrackEntry(s)
    case None => Parsed(s, [])
    case Some(e) =>
      var more := TrackEntries(e.rest);
      SuffixTransitive(more.rest, e.rest, s);
      var entries := [e.value] + more.value;
      assert TrackEntry(more.rest).None?;
      Parsed(more.rest, entries)
  }

  /** `note_track`: `#START`, the track's entries, then `#END`. The start
      command is the first entry; `#END` is consumed and not kept. */
  function NoteTrackBlock(s: string): (r: Option<Parsed<seq<NoteTrackEntry>>>)
    ensures r.Some? ==> ValidTrack(r.value.value)
    ensures r.Some? ==> IsSuffix(r.value.rest, s) && |r.value.rest| < |s|
  {
    match StartCommand(s)
    case None => None
    case Some(start) =>
      var body := TrackEntries(start.rest);
      match EndCommand(body.rest)
      case None => None
      case Some(end) =>
        SuffixTransitive(body.rest, start.rest, s);
        SuffixTransitive(end.rest, body.rest, s);
        var track := [Command(start.value)] + body.value;
        assert track[1..] == body.value;
        Some(Parsed(end.rest, track))
  }

  /** One top-level item, after any blank lines: a metadata line or a whole
      note track. */
  function TjaItem(s: string): (r: Option<Parsed<TJAFileItem>>)
    ensures r.Some? ==> ValidItem(r.value.value)
    ensures r.Some? ==> IsSuffix(r.value.rest, s) && |r.value.rest| < |s|
  {
    var t := SkipWhile(IsWhitespace, s);
    match MetadataPair(t)
    case Some(m) =>
      SuffixTransitive(m.rest, t, s);
      Some(Parsed(m.rest, Metadata(m.value.0, m.value.1)))
    case None =>
      match NoteTrackBlock(t)
      case None => None
      case Some(track) =>
        SuffixTransitive(track.rest, t, s);
        Some(Parsed(track.rest, NoteTrack(track.value)))
  }

  /** nom's `many0(TjaItem)`. */
  function TjaItems(s: string): (r: Parsed<seq<TJAFileItem>>)
    ensures IsSuffix(r.rest, s)
    ensures TjaItem(r.rest).None?
    ensures forall item :: item in r.value ==> ValidItem(item)
    decreases |s|
  {
    match TjaItem(s)
    case None => Parsed(s, [])
    case Some(item) =>
      var more := TjaItems(item.rest);
      SuffixTransitive(more.rest, item.rest, s);
      var items := [item.value] + more.value;
      assert TjaItem(more.rest).None?;
      Parsed(more.rest, items)
  }

  /** `tja_file`: the items of the whole input, in source order. Anything
      but blank space left over after the last item fails the whole file. */
  function TjaFile(s: string): (r: Option<Parsed<seq<TJAFileItem>>>)
    ensures r.Some? ==> r.value.rest == [] && forall item :: item in r.value.value ==> ValidItem(item)
  {
    var items := TjaItems(s);
    if SkipWhile(IsWhitespace, items.rest) == [] then Some(Parsed([], items.value)) else None
  }
}
