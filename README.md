# spoyet: application state of the music search-and-preview widget

The widget is one browser script, `app.js`. It takes a search query and fills a grid of track cards, either from a remote endpoint or from a built-in fallback set of two tracks. Each card can play a short audio preview, open an external listening link, or be starred as a favorite. Favorites are persisted under the `mp_favs` storage key. This project models that script's state machine and the pure helpers it renders through.

- `App.State` is a class holding the script's module-level state: `currentTracks`, `playingId`, `favorites` and `showingFav`. It also holds the status line (`notice`, as an abstract message kind), the grid's children (`grid`) and a ghost copy of the persisted favorites (`stored`). Each event handler is a method: `OnPlay`, `Ended`, `ToggleFavorite`, `ShowFavorites`, `ShowAll` and `Search`. `RenderTracks` is the loop that rebuilds the grid.
- `Playback` holds the exclusive-playback step. `Favorites` holds the favorite toggle and the "favorites only" list, with its placeholder synthesis. `Tracks` holds the track record, the fallback set, the response mapping and the mock filter. `View` holds the per-card decisions and the link choice. `Escape` holds the three-character HTML escaper. `Text` and `Seqs` model the JavaScript string and array primitives the script calls (`trim`, `toLowerCase`, `join`, `includes`, `filter`).
- The configured endpoint `BASE_URL` is a constant (`''`) in the script. The model takes it as a constructor argument so that both search paths can be reached.
- The one request is modelled as a `FetchOutcome` argument: `Failure`, or the decoded body's optional `tracks` list. Whether the audio engine rejects `play()` is a boolean argument. Storage's initial content is an argument of the constructor: `None` when nothing readable is stored.
- JavaScript's falsy string values are modelled as `None` or `""`. An optional string counts as present (`Tracks.Present`) when it is `Some` and non-empty.

Three facts about `app.js` that shape the model:
- A placeholder for a stored favorite id is named `Favorit (id:<id>)` (app.js:196).
- Favorites are an ordered list, and removal drops every occurrence of the id (app.js:177).
- An empty mapped response renders the single "No results" node (app.js:65-66).

Behaviours of the code that the model makes visible:
- At startup the grid shows the fallback cards while `currentTracks` is still empty. So before the first search, any re-render (play, favorite toggle, end of track, "show all") replaces those cards with "No results". `App.PlayBeforeFirstSearch` exhibits this.
- `ToggleFavorite`, `Ended`, and `OnPlay` on a track with a preview re-render `currentTracks`, even when the favorites view is showing, and `showingFav` stays true all the same. `OnPlay` on a track without a preview (every placeholder of the favorites view) changes only the notice and renders nothing.
- A rejected `play()` leaves `playingId` set. Only the notice reports the rejection.

## Model

| member | source | states |
|---|---|---|
| Text.Trim | app.js:97 | the trimmed query is no longer than the input and neither starts nor ends with whitespace |
| Text.TrimStart | app.js:97 | the result is the suffix of the input left after dropping a run of ECMAScript whitespace, and it does not itself start with whitespace |
| Text.TrimEnd | app.js:97 | the result is the prefix of the input left after dropping a run of trailing whitespace, and it does not itself end with whitespace |
| Text.TrimEmptyIff | app.js:97-98 | a query is rejected as empty exactly when every character of it is whitespace |
| Text.ToLower | app.js:101 | lower-casing keeps the length and leaves no ASCII upper-case letter |
| Text.ToLowerSpec | app.js:101 | lower-casing copies every character outside `A`-`Z` and maps each of `A`-`Z` to its lower-case letter, the code point plus 32 |
| Text.ToLowerIdempotent | app.js:101 | lower-casing twice equals lower-casing once |
| Text.Contains | app.js:101 | an occurring pattern is no longer than the text, and the empty pattern occurs in every text |
| Text.ContainsIff | app.js:101 | `includes` holds exactly when the pattern occurs at some index of the text |
| Text.ContainsNeedsChar | app.js:101 | a pattern holding a character the text lacks never occurs in it |
| Text.Join | app.js:101 | joining no parts gives the empty string, one part gives that part, and otherwise the join starts with the first part and ends with the last |
| Text.JoinAppend | app.js:101 | joining two non-empty lists of parts equals joining each with one separator between, so every part appears in order with exactly one separator between neighbours |
| Text.JoinChars | app.js:101 | a character absent from every part and from the separator is absent from the join |
| Seqs.Filter | app.js:101 | the filtered list is no longer than the input and every kept element satisfies the predicate |
| Seqs.FilterMembership | app.js:101 | `filter` keeps an element exactly when it is in the input and satisfies the predicate |
| Seqs.FilterIsSubsequence | app.js:101 | `filter` keeps the relative order of the input |
| Seqs.FilterMultiset | app.js:177 | `filter` keeps every occurrence of a kept element and drops every occurrence of a dropped one |
| Seqs.FilterAppend | app.js:177 | `filter` distributes over concatenation |
| Escape.ReplaceAll | app.js:163 | every character of the result is a kept character of the input other than the pattern, or a character of the replacement; every input character other than the pattern is kept |
| Escape.EscapeHtml | app.js:163 | the escaped text never contains `<` or `>`, and every input character other than `&`, `<` and `>` survives |
| Escape.EscapeHtmlPerChar | app.js:163 | the three sequential `replaceAll` passes equal escaping each character on its own (`&`, `<`, `>` to their entities, all else copied) |
| Escape.EscapeHtmlRoundTrip | app.js:163 | decoding the three entities gives the original text back, so nothing else is altered and nothing is lost |
| Escape.EscapeHtmlPlain | app.js:163 | text without `&`, `<` or `>` is returned unchanged (the escaping is deliberately narrow) |
| Tracks.MockTracksFields | app.js:8-25 | the fallback set is two tracks with distinct ids, each with a preview and with no external URL or structured album |
| Tracks.MapRawTrack | app.js:115-120 | ids and names are copied; missing artists become `[]`, a missing album `{}`, a missing or empty preview URL null, and the external URL is the given one or `''` when missing; a track has a preview exactly when the raw one has a truthy preview URL |
| Tracks.MapResponse | app.js:114-121 | the mapped list has the length of the response's list (none when the list is missing), element by element in order |
| Tracks.MapMissingList | app.js:114 | a body without a `tracks` list maps to no track |
| Tracks.SearchKey | app.js:101 | the key is the lower-cased name followed directly, with no separator, by the lower-cased space-joined artists, and holds no ASCII upper-case letter |
| Tracks.MockSearch | app.js:101 | the mock results are at most the two fallback tracks, and each of them matches the query |
| Tracks.MockSearchSpec | app.js:101 | mock results are exactly the fallback tracks whose lower-cased `name + artists.join(' ')` contains the lower-cased query, in fallback order |
| Tracks.MockSearchCaseInsensitive | app.js:101 | the mock filter gives the same result for a query and its lower-cased form |
| Tracks.MockSearchCaseEquivalent | app.js:101 | two queries equal up to ASCII letter case select the same fallback tracks |
| Tracks.AcousticExample | app.js:101 | any casing of "acoustic" keeps "Acoustic Loop" and drops "SoundHelix Example" |
| Tracks.SearchResults | app.js:100-130 | mock results are an order-kept selection of the fallback set, each matching the query; a failed request gives exactly the two fallback tracks; a response gives one track per element of its list |
| Favorites.Remove | app.js:177 | the removed id no longer occurs and the list does not grow |
| Favorites.Toggle | app.js:177-178 | the id is in the result exactly when it was not in the input; an absent id grows the list by one |
| Favorites.RemoveSpec | app.js:177 | removing an id drops all its occurrences and keeps every other id, as often as before and in order |
| Favorites.ToggleFlips | app.js:177-178 | the toggle flips the id's membership and leaves every other id's membership unchanged |
| Favorites.ToggleAppends | app.js:178 | an absent id is appended at the end |
| Favorites.ToggleTwiceAbsent | app.js:175-179 | two toggles of an absent id restore the original list |
| Favorites.ToggleTwicePresent | app.js:175-179 | two toggles of a present id restore membership, with its duplicates removed and the id moved to the end |
| Favorites.ToggleKeepsNoDuplicates | app.js:177-178 | a list without duplicates stays without duplicates |
| Favorites.Placeholders | app.js:194-197 | one placeholder per stored id, in stored order, named `Favorit (id:<id>)`, with no artists, no preview and no external URL |
| Favorites.Starred | app.js:184 | at most the current tracks are kept, and every kept one has a stored id |
| Favorites.StarredSpec | app.js:184 | the starred tracks are exactly the current tracks whose id is stored, in their current order |
| Favorites.FavoritesList | app.js:184-186 | every record the favorites view shows carries a stored id, and the view is empty exactly when no id is stored |
| Favorites.FavoritesListMatched | app.js:184-186 | when some current track is a favorite, the view is exactly the starred tracks |
| Favorites.FavoritesListFallsBack | app.js:186 | when no current track is a favorite but ids are stored, the view is their placeholders |
| Favorites.FavoritesListNone | app.js:186 | with no stored ids the favorites view is empty |
| Playback.PlayStep | app.js:134-147 | without a preview the playing id is unchanged; with one it becomes null exactly when this track was playing, and otherwise becomes this track's id |
| Playback.PlayTwiceRestores | app.js:139-147 | two toggles of one track restore a playing id that was null or that track's |
| Playback.PlayTwiceFromOther | app.js:139-147 | while another track plays, the first toggle takes over the playing id and the second clears it |
| View.AlbumCover | app.js:72 | a structured cover exists exactly when the album has a first image with a truthy URL, and it is that URL |
| View.Cover | app.js:72 | the cover is the first album image URL if truthy, else `albumImage` if truthy, else the placeholder constant; never empty |
| View.MockCovers | app.js:72 | the fallback tracks show their own cover images |
| View.PlaceholderCover | app.js:196 | a placeholder record shows the placeholder image |
| View.CardFor | app.js:72-84 | the card carries the track's id and cover; the label is "Pause" exactly for the playing track, else "Play"; Play is disabled exactly without a preview; the glyph is ★ exactly for a favorite, else ☆; title and artist line hold no `<` or `>` |
| View.CardText | app.js:78-79 | a card's title decodes to the track's name and its artist line to the `', '`-join of the artists |
| View.Rendered | app.js:63-94 | an empty list renders exactly one "No results" node; a non-empty list renders one card per track, with ids in order and no "No results" node |
| View.CardDecisions | app.js:72-84 | the label is "Pause" exactly when the track is playing, else "Play"; Play is disabled exactly without a preview; the glyph is ★ exactly for a favorite, else ☆; the title unescapes to the name |
| View.RenderedHasNoMarkup | app.js:78-79 | no card title or artist line contains `<` or `>` |
| View.AtMostOnePause | app.js:81 | among tracks with distinct ids, at most one card offers "Pause" |
| View.FavoritesViewStarred | app.js:184-186 | every card of the favorites view shows ★ |
| View.SpotifyLink | app.js:151-157 | "Open" uses the external URL when it is non-empty, else a search for the name, a space and the first artist |
| View.MockLinksSearch | app.js:151-157 | the fallback tracks always get a synthesized search link |
| App.SearchNotice | app.js:100-127 | the status a non-empty search leaves: mock note, failure report, "no tracks" for an empty response, else cleared |
| App.State.constructor | app.js:38-60 | the initial state: no results, nothing playing, favorites from storage (or none), the list view, and the fallback set rendered |
| App.State.RenderTracks | app.js:63-94 | the grid becomes the rendering of the given tracks under the current playing id and favorites |
| App.State.Ended | app.js:58 | whatever was playing, the playing id is cleared and the current tracks are re-rendered; nothing else changes |
| App.State.OnPlay | app.js:134-149 | the playing id follows `PlayStep`; without a preview only the notice changes; otherwise the current tracks are re-rendered, and a rejected start sets only the notice |
| App.State.SaveFavorites | app.js:172-174 | the persisted list becomes the in-memory list |
| App.State.ToggleFavorite | app.js:175-181 | favorites become their toggle, storage is rewritten with them, the current tracks are re-rendered, and the storage invariant is kept |
| App.State.ShowFavorites | app.js:182-187 | the favorites view is entered and the favorites list is rendered |
| App.State.ShowAll | app.js:188-192 | the list view is entered, the notice is cleared, and the current tracks are rendered unchanged |
| App.State.Search | app.js:96-132 | an empty trimmed query changes only the notice; otherwise the results become the mock filter, the mapped response, or the fallback set on failure, and are rendered |
| App.PlayBeforeFirstSearch | app.js:38-60 | pressing play on a fallback card before any search leaves the grid showing only "No results" |

## Left out

- DOM construction and event wiring (`innerHTML`, `createElement`, `addEventListener`, `querySelector`, `stopPropagation`). A render is the sequence of card records, not markup.
- `fetch`, `res.text()` and `res.json()` are network I/O. Their outcome is an argument, and the error message text is not modelled.
- Overlapping searches and the rest of the asynchronous interleaving. Each handler runs to completion. The rejection notice of `play()`, which really arrives later, is applied at the end of `OnPlay`.
- The audio element (`src`, `play()`, `pause()`) is a foreign engine. Only its effect on `playingId` and on the notice is kept.
- `localStorage` and `JSON.parse`/`JSON.stringify` in `loadFavorites`/`saveFavorites` are library-backed storage. The loaded list is a constructor argument and the persisted value is a ghost field. A parsed value that is not a list of strings is not modelled.
- `encodeURIComponent`, `window.open`, `youtubeSearchUrl` and the concrete URL strings are foreign encoding. `SpotifyLink` keeps only the branch and the query text before encoding.
- `toggleDark` and the theme load (app.js:200-216) are a DOM attribute and a storage flag only.
- Notice texts and `console` logging are messages only. The status line is an abstract `Notice` kind.
- Text.ToLower: lower-cases the ASCII letters only, while `toLowerCase` maps all of Unicode.
- Track fields are typed. Ids that are not strings or are missing, `null` elements of a response list (which would throw and take the fallback path), artist entries that are not strings, and `escapeHtml`'s `toString` of non-string values are not modelled.
- Strings are sequences of Unicode scalar values, not UTF-16 code units.
