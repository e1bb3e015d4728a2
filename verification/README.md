# Music Finder: a Dafny model of its state logic

Music Finder is a single React component that searches a public music catalogue,
shows the matching tracks as tiles, plays 30-second previews and keeps a list of
favourite tracks in browser storage. Under the rendering sit a few pieces of pure
logic, and this project models them as immutable data and pure transition
functions:

- **Favourites** (`favourites.dfy`): a sequence of favourite records, newest
  first, used as a set keyed by `trackId`. `ToggleFav` removes every record of
  the track's id, or prepends the track's six-field projection. `IsFav` is the
  membership test. `LoadFavs` reads the stored list, and a missing or corrupt
  entry gives the empty list.
- **Visible list** (`visible.dfy`): under the "favs" filter, the results whose
  `trackId` is a favourite's, in result order. Under "all", the results
  themselves.
- **Playback** (`playback.dfy`): the audio element is reduced to the URL that is
  playing, an `Option<string>`. `PlayPreview` ignores a falsy URL, pauses the
  URL already playing and otherwise switches to the new URL. `StopAudio`, which
  runs when the search form is submitted, clears it. So does the clip's `ended`
  event, which is an `App.Step` event.
- **Search** (`text.dfy`, `search.dfy`, `app.dfy`): `searchItunes` trims the
  query with ECMAScript `trim` semantics and does nothing for a blank term.
  Otherwise it shows "Searching...", clears the playing URL and, once the
  request resolves, updates the status line. On success it also replaces the
  results, and on failure it keeps the previous ones. The request is
  replaced by an abstract `Response`: `Failure`, or `Ok` with a `results` field
  that may be absent.
- **Application** (`app.dfy`): the component state, the events that change it
  (`Step`) and the invariant they keep: one favourite per track id, and a
  playing URL that is never empty.

Generic sequence facts (`filter`, `some`, the subsequence relation) are in
`seqs.dfy`. Records are in `tracks.dfy`. `Option` is in `wrappers.dfy`.

## Model

| member | source | states |
|---|---|---|
| Seqs.Filter | src/App.jsx:44 | `Array.filter` keeps exactly the elements satisfying the predicate and is never longer than its input |
| Seqs.FilterIsSubsequence | src/App.jsx:44 | the filtered list is a subsequence of the input, so kept elements keep their relative order |
| Seqs.FilterCounts | src/App.jsx:87 | the filtered list holds every occurrence of each kept element and no occurrence of the others |
| Seqs.Any | src/App.jsx:81 | `Array.some` holds exactly when some index satisfies the predicate |
| Seqs.FilterKeepsAll | src/App.jsx:87 | filtering with a predicate every element satisfies returns the list unchanged |
| Favourites.IsFav | src/App.jsx:80-82 | `isFav(item)` holds exactly when some favourite has the item's `trackId`, that is, when the id is in the favourites' id set |
| Favourites.ToggleFav | src/App.jsx:84-100 | toggling flips `isFav`. For an absent id it prepends the six-field projection, grows the list by one and leaves the old list after it. For a present id it removes every record with that id and keeps the others in order with their multiplicities. The id set gains or loses exactly that id, and unique ids stay unique |
| Favourites.RemoveFavFacts | src/App.jsx:86-87 | removing the records of a favourite's id makes the track a non-favourite. The other records stay in order with their multiplicities, the id leaves the id set, and unique ids stay unique |
| Favourites.AddFavFacts | src/App.jsx:89-99 | prepending the projection of a non-favourite makes it a favourite, adds exactly its id to the id set and keeps ids unique |
| Favourites.WithoutIdKeepsUnique | src/App.jsx:86-87 | removing every record of one id from a list with unique ids leaves a list with unique ids |
| Favourites.ToggleTwiceRestores | src/App.jsx:84-100 | toggling the same absent track twice gives back the original favourites list |
| Favourites.LoadFavs | src/App.jsx:6-13 | a missing or unparseable stored value gives the empty list, and a parsed list is returned as stored |
| Visible.VisibleList | src/App.jsx:41-47 | under "favs", the visible list is the order-preserving subsequence of the results whose id is a favourite's, with their multiplicities. Under "all", it equals the results |
| Visible.ToggleShowsInFavsView | src/App.jsx:41-47 | a result appears in the favourites view after a toggle exactly when it was not a favourite before |
| Visible.ExampleFavsView | src/App.jsx:41-47 | results with ids 1, 2, 3 and favourites with ids 2, 3 give the view [2, 3] |
| Playback.PlayPreview | src/App.jsx:103-123 | a falsy URL leaves the state unchanged. For a truthy URL, the result is that URL exactly when it was not already playing, and none exactly when it was. The playing URL, if there is one, is never the empty string |
| Playback.StopAudio | src/App.jsx:125-128 | after `stopAudio` nothing is playing, whatever was playing before |
| Playback.PlayTwiceStops | src/App.jsx:103-123 | pressing play twice on a non-empty URL that was not playing plays it and then returns to none |
| Playback.SwitchPlaysNew | src/App.jsx:113-122 | pressing play on a second URL while a different one plays makes the second one playing |
| Playback.PlayThriceIsOnce | src/App.jsx:103-123 | the play button on one URL is a two-state toggle: three presses equal one |
| Text.Trim | src/App.jsx:50 | the trimmed term is the slice of the query between its leading and trailing ECMAScript white space. It is empty exactly when the query is all white space, and otherwise starts and ends with non-white-space |
| Text.TrimIdempotent | src/App.jsx:50 | trimming a trimmed term changes nothing |
| Text.BlankTermsTrimToEmpty | src/App.jsx:50-51 | "" and "   " trim to the empty term, so their search is a no-op |
| Search.Resolve | src/App.jsx:67-74 | on success the results become the response's list, or empty when the field is absent. The status is "Showing results" exactly when that list is non-empty and "No results" exactly when it is empty. On failure the previous results stay and the status is the error message |
| Search.StatusesDistinguishOutcomes | src/App.jsx:54-74 | the success, empty, error and progress messages are pairwise different, and each outcome message determines its term |
| Search.AbsentResultsAreEmpty | src/App.jsx:67-69 | a response without a `results` field resolves exactly like one with an empty list |
| App.Initial | src/App.jsx:20-29 | the first state has the query "Drake", the status "Type a search and press Enter.", the filter "all", the loaded favourites, no results and nothing playing. It satisfies the invariant when the stored list has unique ids |
| App.SearchItunes | src/App.jsx:49-78 | a blank term leaves the whole state unchanged. Otherwise playback is cleared, query, favourites and filter are kept, and results and status follow the response for the trimmed term. A failure keeps the results and shows the error |
| App.Mounted | src/App.jsx:35-39 | the search for "Drake" on mount starts from the loaded favourites and the query "Drake", with nothing playing. On success its results come from the response, and the status is `Showing results for "Drake".` exactly when they are non-empty and `No results for "Drake". Try another search.` exactly when they are empty. On failure the results stay empty and the status is the error |
| App.BeginSearch | src/App.jsx:53-55 | starting a search sets the status to "Searching..." and clears the playing URL. Query, results, favourites and filter are unchanged |
| App.CompleteSearch | src/App.jsx:67-74 | a resolved request sets results and status as `Resolve` decides for the previous results, and changes nothing else. On failure the results are kept and the status is the error. On success the results come from the response and the status says whether any were found |
| Wrappers.Option.GetOr | src/App.jsx:67 | the `[]` fallback for `data.results`: a present list is returned as it is, and an absent field gives the default |
| App.LastResolutionWins | src/App.jsx:63-72 | of two overlapping requests, a successful one that resolves last alone decides results and status |
| App.Step | src/App.jsx:140-211 | every event keeps the invariant and changes only its own fields. Typing sets the query to the typed text, and the filter buttons set the filter to their mode. The play button applies `PlayPreview` to the playing URL. The star button applies `ToggleFav` to the favourites, so `isFav` of its track flips. Submitting stops playback, keeps the results, and shows "Searching..." unless the query is blank, in which case the status is kept. A resolved request sets results and status as `Resolve` decides. After the clip's `ended` event (src/App.jsx:115) nothing is playing |
| App.RunPreservesValid | src/App.jsx:49-211 | any sequence of events from a valid state keeps one favourite per id, and the playing URL, if there is one, is never the empty string |
| App.SubmitThenResolve | src/App.jsx:157-163 | submitting a non-blank query and receiving its response equals `stopAudio` followed by `searchItunes(query)` |

## Left out

- Rendering, CSS classes, button labels and the favourites counter (src/App.jsx:130-222) are presentation. Only the event handlers they wire are modelled, in `App.Step`.
- The HTTP request, the URL built with `encodeURIComponent`, the entity "song" and the limit of 25 (src/App.jsx:57-66) are network I/O. They are replaced by the `Response` parameter. A non-success status, a network error and an unreadable body all become `Failure`.
- `localStorage` and JSON (de)serialisation in `loadFavs`/`saveFavs` (src/App.jsx:6-17) are foreign storage. `LoadFavs` takes the stored value already classified as missing, corrupt or parsed, and an empty stored string counts as missing. A stored value that parses to something other than an array, such as `null`, is not modelled. The `saveFavs` effect (src/App.jsx:31-33) and the save/load round trip are left out with the serialiser.
- The `Audio` element's play, pause and source rebinding (src/App.jsx:113-121) is a device side effect. Only the playing URL is modelled.
- React scheduling is not modelled: `useState` updaters, `useMemo` caching and effect timing. Each event is applied to the state left by the previous one.
- The `loading` flag (src/App.jsx:23, 53, 76) is not modelled. In the program it disables the submit button (src/App.jsx:170), which is also the form's default button, so neither a click nor Enter can start a second search while one is pending. The model over-approximates: `Submit` may fire while a request is pending, so `Submit` and `SearchDone` events interleave freely. `App.LastResolutionWins` therefore describes overlapping requests that the program's interface largely prevents.
- `trackId` is modelled as an always-present integer. Records without a `trackId`, whose ids would compare equal as `undefined` in JavaScript, are not modelled.
- Strings are sequences of Unicode scalar values rather than UTF-16 code units. Every white-space character that `trim` removes lies in the Basic Multilingual Plane, so trimming is unaffected.
