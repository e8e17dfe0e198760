/** The values a TJA chart parses into: note slots, track commands, the
    entries of a note track and the top-level items of a chart file. */
module TjaTypes {
  import opened Wrappers

  /** A note symbol. Only the digits 1 (Don) and 2 (Kat) have a meaning fixed
      by the parser's tests; the digits 3 to 9 are accepted and kept as the
      digit they were written with. The digit 0 is a rest: a `None` slot. */
  datatype NoteType = Don | Kat | Unmapped(digit: char)

  datatype Player = Player1 | Player2

  datatype TrackCommand =
    | Start(player: Option<Player>)
    | End
    | GogoStart
    | GogoEnd
    | Measure(numerator: nat, denominator: nat)

  datatype NoteTrackEntry =
    | Command(command: TrackCommand)
    | Notes(notes: seq<Option<NoteType>>)
    | EndMeasure

  datatype TJAFileItem =
    | Metadata(key: string, value: string)
    | NoteTrack(entries: seq<NoteTrackEntry>)

  datatype TJAParseError = SyntaxError | MetadataNeeded(key: string)

  /** What a combinator returns on success: the input it left unconsumed and
      the value it recognised (nom's `Ok((remaining, value))`). */
  datatype Parsed<+T> = Parsed(rest: string, value: T)

  /** The chart header and its note tracks, once the required metadata has
      been found. */
  datatype Song = Song(
    title: string,
    bpm: string,
    wave: string,
    header: map<string, string>,
    tracks: seq<seq<NoteTrackEntry>>)

  predicate IsDigit(c: char) { '0' <= c <= '9' }

  /** Characters of a metadata tag: upper-case ASCII letters and digits. */
  predicate IsTagChar(c: char) { 'A' <= c <= 'Z' || IsDigit(c) }

  /** A note written with a digit from 3 to 9. */
  predicate ValidNote(n: NoteType) {
    n.Unmapped? ==> '3' <= n.digit <= '9'
  }

  /** A command that may appear between `#START` and `#END`. */
  predicate IsInnerCommand(c: TrackCommand) {
    || c.GogoStart?
    || c.GogoEnd?
    || (c.Measure? && c.numerator > 0 && c.denominator > 0)
  }

  predicate ValidEntry(e: NoteTrackEntry) {
    match e
    case Command(c) => IsInnerCommand(c)
    case Notes(ns) => |ns| > 0 && forall n :: n in ns && n.Some? ==> ValidNote(n.value)
    case EndMeasure => true
  }

  /** A note track as the parser produces it: the `#START` command, then
      inner commands, note groups and measure ends; `#END` is not kept. */
  predicate ValidTrack(t: seq<NoteTrackEntry>) {
    && |t| > 0
    && t[0].Command? && t[0].command.Start?
    && forall e :: e in t[1..] ==> ValidEntry(e)
  }

  predicate ValidTag(k: string) {
    |k| > 0 && forall i :: 0 <= i < |k| ==> IsTagChar(k[i])
  }

  /** A metadata value as the parser produces it: one line, without the
      blanks that follow the colon. */
  predicate ValidValue(v: string) {
    && (forall i :: 0 <= i < |v| ==> v[i] != '\r' && v[i] != '\n')
    && (|v| > 0 ==> v[0] != ' ' && v[0] != '\t')
  }

  predicate ValidItem(item: TJAFileItem) {
    match item
    case Metadata(k, v) => ValidTag(k) && ValidValue(v)
    case NoteTrack(t) => ValidTrack(t)
  }
}
