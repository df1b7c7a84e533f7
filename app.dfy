/** The widget's application state and its event handlers. */
module App {
  import opened Wrappers
  import opened Text
  import opened Tracks
  import opened Favorites
  import opened Playback
  import opened View

  /** Which status-line message is showing (the message texts themselves are not modelled). */
  datatype Notice =
    | MockBanner          // no endpoint configured, at startup
    | ConnectedBanner     // endpoint configured, at startup
    | EnterQuery          // the trimmed query was empty
    | MockMode            // mock results shown
    | NoTracksFound       // the response mapped to no track
    | Blank               // cleared
    | SearchFailed        // request or parse failure; the fallback set is shown
    | PreviewUnavailable  // play pressed on a track without preview
    | PlaybackBlocked     // the audio engine rejected the start
    | FavoritesHeading    // the favorites view is showing

  /** The message a non-empty search leaves: the mock-mode note, the failure report, or for a
      response "no tracks found" when it mapped to nothing and a cleared line otherwise. */
  function SearchNotice(mock: bool, outcome: FetchOutcome, results: seq<Track>): Notice {
    if mock then MockMode
    else if outcome.Failure? then SearchFailed
    else if results == [] then NoTracksFound
    else Blank
  }

  class State {
    /** The configured endpoint; the empty string selects mock mode. */
    const baseUrl: string

    var currentTracks: seq<Track>
    var playingId: Option<string>
    var favorites: seq<string>
    var showingFav: bool
    var notice: Notice
    /** The children of the grid element, as the last render left them. */
    var grid: seq<Node>
    /** The list persisted under `mp_favs`; `None` when no readable list is stored. */
    ghost var stored: Option<seq<string>>

    /** Storage never holds a list other than the in-memory one. */
    ghost predicate Valid()
      reads this
    {
      stored.Some? ==> stored.value == favorites
    }

    /** Startup: favorites come from storage (an unreadable value gives none) and the fallback
        set is rendered, while `currentTracks` is still empty. */
    constructor (baseUrl: string, loaded: Option<seq<string>>)
      ensures Valid()
      ensures this.baseUrl == baseUrl && currentTracks == [] && playingId.None?
      ensures favorites == loaded.GetOr([]) && stored == loaded && !showingFav
      ensures notice == if baseUrl == "" then MockBanner else ConnectedBanner
      ensures grid == Rendered(MOCK_TRACKS, None, favorites)
    {
      this.baseUrl := baseUrl;
      currentTracks := [];
      playingId := None;
      favorites := loaded.GetOr([]);
      stored := loaded;
      showingFav := false;
      notice := if baseUrl == "" then MockBanner else ConnectedBanner;
      grid := [];
      new;
      RenderTracks(MOCK_TRACKS);
    }

    /** Replaces the grid: a "No results" notice for an empty list, else one card per track. */
    method RenderTracks(tracks: seq<Track>)
      modifies this`grid
      ensures grid == Rendered(tracks, playingId, favorites)
    {
      grid := [];
      if |tracks| == 0 {
        grid := [NoResults];
        return;
      }
      var i := 0;
      while i < |tracks|
        invariant 0 <= i <= |tracks|
        invariant |grid| == i
        invariant forall k :: 0 <= k < i ==> grid[k] == CardNode(CardFor(tracks[k], playingId, favorites))
      {
        grid := grid + [CardNode(CardFor(tracks[i], playingId, favorites))];
        i := i + 1;
      }
    }

    /** The audio element's `ended` event. */
    method Ended()
      requires Valid()
      modifies this`playingId, this`grid
      ensures Valid()
      ensures playingId.None?
      ensures grid == Rendered(currentTracks, None, favorites)
    {
      playingId := None;
      RenderTracks(currentTracks);
    }

    /** The play/pause toggle of a card. `rejected` is whether the audio engine refuses to start
        the preview; the playing id is set before, and regardless of, that answer. */
    method OnPlay(t: Track, rejected: bool)
      requires Valid()
      modifies this`playingId, this`notice, this`grid
      ensures Valid()
      ensures playingId == PlayStep(old(playingId), t)
      ensures !HasPreview(t) ==> notice == PreviewUnavailable && grid == old(grid)
      ensures HasPreview(t) ==> grid == Rendered(currentTracks, playingId, favorites)
      ensures HasPreview(t) && old(playingId) != Some(t.id) && rejected ==> notice == PlaybackBlocked
      ensures HasPreview(t) && (old(playingId) == Some(t.id) || !rejected) ==> notice == old(notice)
    {
      if !HasPreview(t) {
        notice := PreviewUnavailable;
        return;
      }
      if playingId == Some(t.id) {
        playingId := None;
        RenderTracks(currentTracks);
        return;
      }
      if rejected {
        notice := PlaybackBlocked;
      }
      playingId := Some(t.id);
      RenderTracks(currentTracks);
    }

    /** Rewrites the whole persisted list. */
    method SaveFavorites()
      modifies this`stored
      ensures Valid()
      ensures stored == Some(favorites)
    {
      stored := Some(favorites);
    }

    /** The star button of a card: flip the favorite, persist, re-render the current tracks. */
    method ToggleFavorite(t: Track)
      requires Valid()
      modifies this`favorites, this`stored, this`grid
      ensures Valid()
      ensures favorites == Toggle(old(favorites), t.id)
      ensures stored == Some(favorites)
      ensures grid == Rendered(currentTracks, playingId, favorites)
    {
      favorites := Toggle(favorites, t.id);
      SaveFavorites();
      RenderTracks(currentTracks);
    }

    /** Switches to the favorites view. */
    method ShowFavorites()
      requires Valid()
      modifies this`showingFav, this`notice, this`grid
      ensures Valid()
      ensures showingFav && notice == FavoritesHeading
      ensures grid == Rendered(FavoritesList(currentTracks, favorites), playingId, favorites)
    {
      showingFav := true;
      notice := FavoritesHeading;
      RenderTracks(FavoritesList(currentTracks, favorites));
    }

    /** Switches back to the full current result set. */
    method ShowAll()
      requires Valid()
      modifies this`showingFav, this`notice, this`grid
      ensures Valid()
      ensures !showingFav && notice == Blank
      ensures grid == Rendered(currentTracks, playingId, favorites)
    {
      showingFav := false;
      notice := Blank;
      RenderTracks(currentTracks);
    }

    /** The search button. `input` is the text box's value and `outcome` what the request to the
        configured endpoint yields (unused in mock mode). */
    method Search(input: string, outcome: FetchOutcome)
      requires Valid()
      modifies this`currentTracks, this`notice, this`grid
      ensures Valid()
      ensures Trim(input) == "" ==> currentTracks == old(currentTracks) && grid == old(grid) && notice == EnterQuery
      ensures Trim(input) != "" ==>
        && currentTracks == SearchResults(baseUrl == "", Trim(input), outcome)
        && notice == SearchNotice(baseUrl == "", outcome, currentTracks)
        && grid == Rendered(currentTracks, playingId, favorites)
    {
      var q := Trim(input);
      if q == "" {
        notice := EnterQuery;
        return;
      }
      currentTracks := SearchResults(baseUrl == "", q, outcome);
      notice := SearchNotice(baseUrl == "", outcome, currentTracks);
      RenderTracks(currentTracks);
    }
  }

  /** Before any search, `currentTracks` is empty although the fallback cards are on screen, so
      pressing play on one of them re-renders the grid as "No results". */
  method PlayBeforeFirstSearch() returns (g: seq<Node>)
    ensures g == [NoResults]
  {
    MockTracksFields();
    var app := new State("", None);
    app.OnPlay(MOCK_TRACKS[0], false);
    g := app.grid;
  }
}
