/** The uniform track record, the built-in fallback set and the search client's result logic. */
module Tracks {
  import opened Wrappers
  import opened Seqs
  import opened Text

  datatype Image = Image(url: string)

  /** The structured album object of a response; a missing `images` list is the empty list. */
  datatype Album = Album(images: seq<Image>)

  /** The record every card is rendered from. `preview` and `albumImage` may be absent;
      the empty string stands for a falsy text value. */
  datatype Track = Track(
    id: string,
    name: string,
    artists: seq<string>,
    album: Option<Album>,
    albumImage: Option<string>,
    preview: Option<string>,
    externalUrl: string)

  /** One element of a response's `tracks` list, every optional field possibly missing. */
  datatype RawTrack = RawTrack(
    id: string,
    name: string,
    artists: Option<seq<string>>,
    album: Option<Album>,
    previewUrl: Option<string>,
    externalUrl: Option<string>)

  /** What the single request yields: any transport, status or parse failure, or a decoded
      body whose `tracks` field may be missing. */
  datatype FetchOutcome = Failure | Success(tracks: Option<seq<RawTrack>>)

  /** JavaScript truthiness of an optional string: present and non-empty. */
  predicate Present(o: Option<string>) {
    o.Some? && o.value != ""
  }

  predicate HasPreview(t: Track) {
    Present(t.preview)
  }

  const PLACEHOLDER_COVER: string := "https://via.placeholder.com/160"

  const MOCK_COVER_1: string := "https://via.placeholder.com/160"
  const MOCK_COVER_2: string := "https://via.placeholder.com/160/FFB6C1"
  const MOCK_PREVIEW_1: string := "https://www.soundhelix.com/examples/mp3/SoundHelix-Song-1.mp3"
  const MOCK_PREVIEW_2: string := "https://www.soundhelix.com/examples/mp3/SoundHelix-Song-2.mp3"

  /** The built-in fallback set. */
  const MOCK_TRACKS: seq<Track> := [
    Track("m1", "SoundHelix Example", ["SoundHelix"], None, Some(MOCK_COVER_1), Some(MOCK_PREVIEW_1), ""),
    Track("m2", "Acoustic Loop", ["Demo Artist"], None, Some(MOCK_COVER_2), Some(MOCK_PREVIEW_2), "")
  ]

  /** The fallback set: two tracks with distinct ids, each with a preview and without an external
      url or structured album. */
  lemma MockTracksFields()
    ensures |MOCK_TRACKS| == 2 && MOCK_TRACKS[0].id != MOCK_TRACKS[1].id
    ensures forall i :: 0 <= i < |MOCK_TRACKS| ==>
      HasPreview(MOCK_TRACKS[i]) && MOCK_TRACKS[i].externalUrl == "" && MOCK_TRACKS[i].album.None?
  {
  }

  /** Maps one raw response element to the uniform record: id and name are copied and every
      missing or falsy field is replaced by its default. */
  function MapRawTrack(r: RawTrack): (t: Track)
    ensures t.id == r.id && t.name == r.name
    ensures r.artists.None? ==> t.artists == []
    ensures r.artists.Some? ==> t.artists == r.artists.value
    ensures r.album.None? ==> t.album == Some(Album([]))
    ensures r.album.Some? ==> t.album == r.album
    ensures t.albumImage.None?
    ensures HasPreview(t) <==> Present(r.previewUrl)
    ensures !Present(r.previewUrl) ==> t.preview.None?
    ensures Present(r.previewUrl) ==> t.preview == r.previewUrl
    ensures t.externalUrl == r.externalUrl.GetOr("")
  {
    Track(r.id, r.name, r.artists.GetOr([]), Some(r.album.GetOr(Album([]))), None,
          if Present(r.previewUrl) then r.previewUrl else None,
          if Present(r.externalUrl) then r.externalUrl.value else "")
  }

  /** Maps a response's track list (missing list: none) element by element. */
  function MapResponse(tracks: Option<seq<RawTrack>>): (r: seq<Track>)
    ensures |r| == |tracks.GetOr([])|
    ensures forall i :: 0 <= i < |r| ==> r[i] == MapRawTrack(tracks.GetOr([])[i])
  {
    var raws := tracks.GetOr([]);
    seq(|raws|, i requires 0 <= i < |raws| => MapRawTrack(raws[i]))
  }

  /** A body without a `tracks` field counts as an empty result. */
  lemma MapMissingList()
    ensures MapResponse(None) == []
  {
  }

  /** What the mock filter matches against: name and artists, lower-cased, with no separator
      between name and the space-joined artists. */
  function SearchKey(t: Track): (k: string)
    ensures k == ToLower(t.name) + ToLower(Join(t.artists, " "))
    ensures forall i :: 0 <= i < |k| ==> !('A' <= k[i] <= 'Z')
  {
    ToLowerAppend(t.name, Join(t.artists, " "));
    ToLower(t.name + Join(t.artists, " "))
  }

  predicate MockMatches(q: string, t: Track) {
    Contains(SearchKey(t), ToLower(q))
  }

  /** The mock path of `search`: the fallback tracks whose key contains the lower-cased query. */
  function MockSearch(q: string): (r: seq<Track>)
    ensures |r| <= |MOCK_TRACKS|
    ensures forall i :: 0 <= i < |r| ==> MockMatches(q, r[i])
  {
    Filter(MOCK_TRACKS, t => MockMatches(q, t))
  }

  /** Mock results are exactly the matching fallback tracks, in their original order. */
  lemma MockSearchSpec(q: string)
    ensures IsSubsequence(MockSearch(q), MOCK_TRACKS)
    ensures forall t :: t in MockSearch(q) <==> t in MOCK_TRACKS && MockMatches(q, t)
  {
    FilterIsSubsequence(MOCK_TRACKS, t => MockMatches(q, t));
    forall t ensures t in MockSearch(q) <==> t in MOCK_TRACKS && MockMatches(q, t) {
      FilterMembership(MOCK_TRACKS, t => MockMatches(q, t), t);
    }
  }

  /** The mock filter ignores the query's ASCII letter case. */
  lemma MockSearchCaseInsensitive(q: string)
    ensures MockSearch(ToLower(q)) == MockSearch(q)
  {
    ToLowerIdempotent(q);
    FilterCongruent(MOCK_TRACKS, t => MockMatches(ToLower(q), t), t => MockMatches(q, t));
  }

  /** Two queries that agree up to ASCII letter case select the same fallback tracks. */
  lemma MockSearchCaseEquivalent(q1: string, q2: string)
    requires ToLower(q1) == ToLower(q2)
    ensures MockSearch(q1) == MockSearch(q2)
  {
    FilterCongruent(MOCK_TRACKS, t => MockMatches(q1, t), t => MockMatches(q2, t));
  }

  /** A track whose name and artists hold no letter c of either case does not match "acoustic". */
  lemma MissesAcoustic(q: string, t: Track)
    requires ToLower(q) == "acoustic"
    requires 'c' !in t.name && 'C' !in t.name
    requires forall i :: 0 <= i < |t.artists| ==> 'c' !in t.artists[i] && 'C' !in t.artists[i]
    ensures !MockMatches(q, t)
  {
    JoinChars(t.artists, " ", 'c');
    JoinChars(t.artists, " ", 'C');
    ToLowerAvoids(t.name + Join(t.artists, " "), 'c', 'C');
    ContainsNeedsChar(SearchKey(t), ToLower(q), 'c');
  }

  lemma FirstMockMissesAcoustic(q: string)
    requires ToLower(q) == "acoustic"
    ensures !MockMatches(q, MOCK_TRACKS[0])
  {
    MissesAcoustic(q, MOCK_TRACKS[0]);
  }

  lemma LowerAcoustic()
    ensures ToLower("Acoustic") == "acoustic"
  {
    assert forall i :: 0 <= i < 8 ==> LowerChar("Acoustic"[i]) == "acoustic"[i];
  }

  lemma SecondMockMatchesAcoustic(q: string)
    requires ToLower(q) == "acoustic"
    ensures MockMatches(q, MOCK_TRACKS[1])
  {
    var m1 := MOCK_TRACKS[1];
    assert m1.name + Join(m1.artists, " ") == "Acoustic" + " LoopDemo Artist";
    ToLowerAppend("Acoustic", " LoopDemo Artist");
    LowerAcoustic();
    assert SearchKey(m1)[..8] == ToLower(q);
  }

  /** Any casing of "acoustic" keeps "Acoustic Loop" and drops "SoundHelix Example". */
  lemma AcousticExample(q: string)
    requires ToLower(q) == "acoustic"
    ensures MockSearch(q) == [MOCK_TRACKS[1]]
  {
    FirstMockMissesAcoustic(q);
    SecondMockMatchesAcoustic(q);
    FilterPair(MOCK_TRACKS, t => MockMatches(q, t));
  }

  /** The `currentTracks` a non-empty trimmed query produces: the mock filter when no endpoint is
      configured, otherwise the mapped response, or the whole fallback set on any failure, so a
      failed request never leaves the grid empty. */
  function SearchResults(mock: bool, q: string, outcome: FetchOutcome): (r: seq<Track>)
    ensures mock ==> IsSubsequence(r, MOCK_TRACKS) && forall i :: 0 <= i < |r| ==> MockMatches(q, r[i])
    ensures !mock && outcome.Failure? ==> r == MOCK_TRACKS && |r| == 2
    ensures !mock && outcome.Success? ==> |r| == |outcome.tracks.GetOr([])|
  {
    if mock then (MockSearchSpec(q); MockSearch(q))
    else match outcome
      case Failure => MOCK_TRACKS
      case Success(tracks) => MapResponse(tracks)
  }
}
