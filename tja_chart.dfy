/** `parse_tja_file`: preprocessing, the grammar, and the check for the
    metadata every chart must declare. */
module TjaChart {
  import opened Wrappers
  import opened TjaTypes
  import opened TjaParser
  import opened TjaPreprocess

  /** The header mapping the metadata items build up; a key that repeats
      keeps the value written last. */
  function Header(items: seq<TJAFileItem>): (h: map<string, string>)
    ensures h.Keys == set i | 0 <= i < |items| && items[i].Metadata? :: items[i].key
  {
    if items == [] then map[]
    else
      var init := items[..|items| - 1];
      var h := Header(init);
      assert forall i :: 0 <= i < |init| ==> init[i] == items[i];
      match items[|items| - 1]
      case Metadata(k, v) => h[k := v]
      case NoteTrack(_) => h
  }

  /** Last writer wins: the value of a key is the one of its last metadata
      item. */
  lemma {:induction false} HeaderLastWriterWins(items: seq<TJAFileItem>, i: nat)
    requires i < |items| && items[i].Metadata?
    requires forall j :: i < j < |items| ==> !(items[j].Metadata? && items[j].key == items[i].key)
    ensures items[i].key in Header(items) && Header(items)[items[i].key] == items[i].value
  {
    var init := items[..|items| - 1];
    if i < |items| - 1 {
      HeaderLastWriterWins(init, i);
    }
  }

  /** The note tracks among the items, in source order. */
  function Tracks(items: seq<TJAFileItem>): (ts: seq<seq<NoteTrackEntry>>)
    ensures |ts| <= |items|
    ensures forall t :: t in ts ==> NoteTrack(t) in items
    ensures forall i :: 0 <= i < |items| && items[i].NoteTrack? ==> items[i].entries in ts
  {
    if items == [] then []
    else
      var more := Tracks(items[1..]);
      assert forall i :: 1 <= i < |items| ==> items[i] == items[1..][i - 1];
      if items[0].NoteTrack? then [items[0].entries] + more else more
  }

  /** Tracks are collected part by part: those of two lists of items one
      after the other are those of the first, then those of the second. */
  lemma {:induction false} TracksAppend(a: seq<TJAFileItem>, b: seq<TJAFileItem>)
    ensures Tracks(a + b) == Tracks(a) + Tracks(b)
    decreases a
  {
    if a == [] {
      assert a + b == b;
    } else {
      assert (a + b)[1..] == a[1..] + b;
      TracksAppend(a[1..], b);
      if a[0].NoteTrack? {
        var e := [a[0].entries];
        assert e + (Tracks(a[1..]) + Tracks(b)) == (e + Tracks(a[1..])) + Tracks(b);
      }
    }
  }

  /** One more item adds its entries as one more track when it is a note
      track, and nothing when it is metadata. With `Tracks([]) == []`
      this fixes every track, its position and its multiplicity. */
  lemma TracksSnoc(items: seq<TJAFileItem>, item: TJAFileItem)
    ensures Tracks(items + [item]) == Tracks(items) + (if item.NoteTrack? then [item.entries] else [])
  {
    TracksAppend(items, [item]);
    assert [item][1..] == [];
  }

  /** The keys every chart must declare, in the order they are checked. */
  const RequiredMetadata: seq<string> := ["TITLE", "BPM", "WAVE"]

  /** The song a list of items describes: TITLE, BPM and WAVE are looked up
      in that order and the first one missing is the error. */
  function SongOf(items: seq<TJAFileItem>): (r: Result<Song, TJAParseError>)
    ensures r.Failure? ==> r.error.MetadataNeeded?
    ensures r.Failure? ==>
              exists k :: 0 <= k < |RequiredMetadata| && r.error.key == RequiredMetadata[k]
                          && RequiredMetadata[k] !in Header(items)
                          && forall j :: 0 <= j < k ==> RequiredMetadata[j] in Header(items)
    ensures r.Success? <==> forall key :: key in RequiredMetadata ==> key in Header(items)
    ensures r.Success? ==>
              && r.value.title == Header(items)["TITLE"]
              && r.value.bpm == Header(items)["BPM"]
              && r.value.wave == Header(items)["WAVE"]
              && r.value.header == Header(items)
              && r.value.tracks == Tracks(items)
  {
    var header := Header(items);
    if "TITLE" !in header then
      assert RequiredMetadata[0] == "TITLE" && "TITLE" in RequiredMetadata;
      Failure(MetadataNeeded("TITLE"))
    else if "BPM" !in header then
      assert RequiredMetadata[1] == "BPM" && "BPM" in RequiredMetadata;
      Failure(MetadataNeeded("BPM"))
    else if "WAVE" !in header then
      assert RequiredMetadata[2] == "WAVE" && "WAVE" in RequiredMetadata;
      Failure(MetadataNeeded("WAVE"))
    else Success(Song(header["TITLE"], header["BPM"], header["WAVE"], header, Tracks(items)))
  }

  /** `parse_tja_file`: comments removed, the whole text parsed, then the
      song assembled from the items. A syntax error is reported exactly when
      the grammar rejects the text. */
  function ParseTjaFile(text: string): (r: Result<Song, TJAParseError>)
    ensures TjaFile(PreprocessTjaFile(text)).None? <==> r == Failure(SyntaxError)
    ensures TjaFile(PreprocessTjaFile(text)).Some? ==> r == SongOf(TjaFile(PreprocessTjaFile(text)).value.value)
  {
    match TjaFile(PreprocessTjaFile(text))
    case None => Failure(SyntaxError)
    case Some(file) => SongOf(file.value)
  }
}
