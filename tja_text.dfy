/** The canonical chart text of parsed values: what a chart author writes
    for each command, note group, metadata line and note track. It is the
    reference the grammar's round-trip laws are stated against. */
module TjaText {
  import opened Wrappers
  import opened TjaTypes
  import opened TjaLexer

  function PlayerText(p: Option<Player>): string {
    match p
    case None => ""
    case Some(Player1) => " P1"
    case Some(Player2) => " P2"
  }

  function CommandText(c: TrackCommand): (s: string)
    ensures |s| > 0 && s[0] == '#'
  {
    match c
    case Start(p) => "#START" + PlayerText(p)
    case End => "#END"
    case GogoStart => "#GOGOSTART"
    case GogoEnd => "#GOGOEND"
    case Measure(a, b) => "#MEASURE " + (NatText(a) + ("/" + NatText(b)))
  }

  /** The digit a note slot is written with. */
  function DigitOfNote(n: Option<NoteType>): (c: char)
    ensures (n.Some? ==> ValidNote(n.value)) ==> IsDigit(c)
  {
    match n
    case None => '0'
    case Some(Don) => '1'
    case Some(Kat) => '2'
    case Some(Unmapped(d)) => d
  }

  function NotesText(ns: seq<Option<NoteType>>): (s: string)
    ensures |s| == |ns|
    ensures (forall n :: n in ns && n.Some? ==> ValidNote(n.value)) ==> AllDigits(s)
  {
    seq(|ns|, i requires 0 <= i < |ns| => DigitOfNote(ns[i]))
  }

  /** One entry on a line of its own. */
  function EntryText(e: NoteTrackEntry): string
    requires ValidEntry(e)
  {
    match e
    case Command(c) => CommandText(c) + "\n"
    case Notes(ns) => NotesText(ns) + "\n"
    case EndMeasure => ",\n"
  }

  function EntriesText(es: seq<NoteTrackEntry>): string
    requires forall e :: e in es ==> ValidEntry(e)
  {
    if es == [] then [] else EntryText(es[0]) + EntriesText(es[1..])
  }

  /** A whole note track, from `#START` to `#END`. */
  function TrackText(t: seq<NoteTrackEntry>): string
    requires ValidTrack(t)
  {
    CommandText(t[0].command) + ("\n" + (EntriesText(t[1..]) + "#END\n"))
  }

  function ItemText(item: TJAFileItem): string
    requires ValidItem(item)
  {
    match item
    case Metadata(k, v) => k + (":" + (v + "\n"))
    case NoteTrack(t) => TrackText(t)
  }

  function FileText(items: seq<TJAFileItem>): string
    requires forall item :: item in items ==> ValidItem(item)
  {
    if items == [] then [] else ItemText(items[0]) + FileText(items[1..])
  }
}
