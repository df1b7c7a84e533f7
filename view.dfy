/** The per-card view decisions of the track grid and the external-link choice. */
module View {
  import opened Wrappers
  import opened Text
  import opened Escape
  import opened Tracks
  import opened Favorites

  const PLAY: string := "Play"
  const PAUSE: string := "Pause"
  const STARRED: string := "\U{2605}"
  const UNSTARRED: string := "\U{2606}"

  /** What one card shows: escaped title and artist line, cover, play button label and state,
      and the favorite glyph. */
  datatype Card = Card(
    id: string,
    cover: string,
    title: string,
    artists: string,
    playLabel: string,
    playDisabled: bool,
    favGlyph: string)

  /** A child of the grid: the "No results" notice or one card. */
  datatype Node = NoResults | CardNode(card: Card)

  /** The url of the first structured album image, when it is truthy. */
  function AlbumCover(t: Track): (o: Option<string>)
    ensures o.Some? <==> t.album.Some? && |t.album.value.images| > 0 && t.album.value.images[0].url != ""
    ensures o.Some? ==> o.value == t.album.value.images[0].url
  {
    match t.album
    case Some(a) => if |a.images| > 0 && a.images[0].url != "" then Some(a.images[0].url) else None
    case None => None
  }

  /** The cover image: the structured album image, else the flat `albumImage`, else the placeholder. */
  function Cover(t: Track): (c: string)
    ensures c != ""
    ensures AlbumCover(t).Some? ==> c == AlbumCover(t).value
    ensures AlbumCover(t).None? && Present(t.albumImage) ==> c == t.albumImage.value
    ensures AlbumCover(t).None? && !Present(t.albumImage) ==> c == PLACEHOLDER_COVER
  {
    if AlbumCover(t).Some? then AlbumCover(t).value
    else if Present(t.albumImage) then t.albumImage.value
    else PLACEHOLDER_COVER
  }

  /** One card: "Pause" exactly for the playing track, disabled exactly without a preview, a
      filled star exactly for a favorite, and title and artist line free of markup. */
  function CardFor(t: Track, playing: Option<string>, favs: seq<string>): (c: Card)
    ensures c.id == t.id && c.cover == Cover(t)
    ensures c.playLabel == PAUSE <==> playing == Some(t.id)
    ensures c.playLabel == PLAY <==> playing != Some(t.id)
    ensures c.playDisabled <==> !HasPreview(t)
    ensures c.favGlyph == STARRED <==> t.id in favs
    ensures c.favGlyph == UNSTARRED <==> t.id !in favs
    ensures '<' !in c.title && '>' !in c.title && '<' !in c.artists && '>' !in c.artists
  {
    Card(t.id, Cover(t), EscapeHtml(t.name), EscapeHtml(Join(t.artists, ", ")),
         if playing == Some(t.id) then PAUSE else PLAY,
         !HasPreview(t),
         if t.id in favs then STARRED else UNSTARRED)
  }

  /** The grid `renderTracks` leaves behind for `tracks` in the given playback and favorites state:
      one "No results" node and no card for an empty list; otherwise one card per track, in
      order, and no "No results" node. */
  function Rendered(tracks: seq<Track>, playing: Option<string>, favs: seq<string>): (g: seq<Node>)
    ensures tracks == [] ==> g == [NoResults]
    ensures tracks != [] ==> |g| == |tracks| && NoResults !in g
    ensures tracks != [] ==> forall i :: 0 <= i < |tracks| ==> g[i].CardNode? && g[i].card.id == tracks[i].id
  {
    if |tracks| == 0 then [NoResults]
    else seq(|tracks|, i requires 0 <= i < |tracks| => CardNode(CardFor(tracks[i], playing, favs)))
  }

  /** A card's title decodes to the track's name and its artist line to the `", "`-join of the
      artists: the escaping hides no text and shows no other. */
  lemma CardText(t: Track, playing: Option<string>, favs: seq<string>)
    ensures Unescape(CardFor(t, playing, favs).title) == t.name
    ensures Unescape(CardFor(t, playing, favs).artists) == Join(t.artists, ", ")
  {
    EscapeHtmlRoundTrip(t.name);
    EscapeHtmlRoundTrip(Join(t.artists, ", "));
  }

  /** The decisions for the card of `tracks[i]`: "Pause" exactly when it is the playing track,
      disabled exactly when it has no preview, a filled star exactly when it is a favorite, and
      the cover chosen by priority. */
  lemma CardDecisions(tracks: seq<Track>, playing: Option<string>, favs: seq<string>, i: int)
    requires 0 <= i < |tracks|
    ensures var n := Rendered(tracks, playing, favs)[i];
      && n.CardNode?
      && (n.card.playLabel == PAUSE <==> playing == Some(tracks[i].id))
      && (n.card.playLabel == PLAY <==> playing != Some(tracks[i].id))
      && (n.card.playDisabled <==> !HasPreview(tracks[i]))
      && (n.card.favGlyph == STARRED <==> tracks[i].id in favs)
      && (n.card.favGlyph == UNSTARRED <==> tracks[i].id !in favs)
      && n.card.cover == Cover(tracks[i])
      && Unescape(n.card.title) == tracks[i].name
  {
    EscapeHtmlRoundTrip(tracks[i].name);
  }

  /** No card text holds a raw `<` or `>`, whatever the track's name and artists. */
  lemma RenderedHasNoMarkup(tracks: seq<Track>, playing: Option<string>, favs: seq<string>, i: int)
    requires 0 <= i < |tracks|
    ensures '<' !in Rendered(tracks, playing, favs)[i].card.title
    ensures '>' !in Rendered(tracks, playing, favs)[i].card.title
    ensures '<' !in Rendered(tracks, playing, favs)[i].card.artists
    ensures '>' !in Rendered(tracks, playing, favs)[i].card.artists
  {
  }

  predicate UniqueIds(tracks: seq<Track>) {
    forall i, j :: 0 <= i < j < |tracks| ==> tracks[i].id != tracks[j].id
  }

  /** Within a result set of distinct ids, at most one card offers "Pause". */
  lemma AtMostOnePause(tracks: seq<Track>, playing: Option<string>, favs: seq<string>, i: int, j: int)
    requires UniqueIds(tracks)
    requires 0 <= i < |tracks| && 0 <= j < |tracks|
    requires Rendered(tracks, playing, favs)[i].card.playLabel == PAUSE
    requires Rendered(tracks, playing, favs)[j].card.playLabel == PAUSE
    ensures i == j
  {
    CardDecisions(tracks, playing, favs, i);
    CardDecisions(tracks, playing, favs, j);
  }

  /** Every card of the favorites view shows a filled star. */
  lemma FavoritesViewStarred(current: seq<Track>, playing: Option<string>, favs: seq<string>, i: int)
    requires 0 <= i < |FavoritesList(current, favs)|
    ensures Rendered(FavoritesList(current, favs), playing, favs)[i].card.favGlyph == STARRED
  {
  }

  /** The fallback set's cards show their own cover images. */
  lemma MockCovers()
    ensures Cover(MOCK_TRACKS[0]) == "https://via.placeholder.com/160"
    ensures Cover(MOCK_TRACKS[1]) == "https://via.placeholder.com/160/FFB6C1"
  {
  }

  /** A placeholder record shows the placeholder image. */
  lemma PlaceholderCover(favs: seq<string>, i: int)
    requires 0 <= i < |favs|
    ensures Cover(Placeholders(favs)[i]) == PLACEHOLDER_COVER
  {
    var t := Placeholders(favs)[i];
    assert t.album == Some(Album([])) && t.albumImage.None?;
  }

  /** Where "Open" leads: the track's own external url, or a search synthesized from the name
      and the first artist (before url encoding). */
  datatype Link = ExternalLink(url: string) | SpotifySearch(query: string)

  function FirstArtist(t: Track): string {
    if |t.artists| > 0 then t.artists[0] else ""
  }

  function SpotifyLink(t: Track): (l: Link)
    ensures l.ExternalLink? <==> t.externalUrl != ""
    ensures l.ExternalLink? ==> l.url == t.externalUrl
    ensures l.SpotifySearch? ==> l.query == t.name + " " + FirstArtist(t)
  {
    if t.externalUrl != "" then ExternalLink(t.externalUrl)
    else SpotifySearch(t.name + " " + FirstArtist(t))
  }

  /** The fallback tracks carry no external url, so "Open" always synthesizes a search. */
  lemma MockLinksSearch()
    ensures SpotifyLink(MOCK_TRACKS[0]) == SpotifySearch("SoundHelix Example SoundHelix")
    ensures SpotifyLink(MOCK_TRACKS[1]) == SpotifySearch("Acoustic Loop Demo Artist")
  {
  }
}
