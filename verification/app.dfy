/** The application component's state and the user and browser events that
    change it. Rendering is not modelled; the grid shows
    `VisibleList(results, favs, filter)`. */
module App {
  import opened Wrappers
  import opened Tracks
  import opened Favourites
  import opened Visible
  import opened Playback
  import opened Text
  import opened Search

  datatype AppState = AppState(
    query: string,
    status: string,
    results: seq<Track>,
    favs: Favs,
    filter: FilterMode,
    playingUrl: Option<string>)

  /** The invariant the events keep: one favourite per track id, and the
      playing URL, if any, is a non-empty one. */
  predicate Valid(s: AppState) {
    UniqueIds(s.favs) && ValidPlaying(s.playingUrl)
  }

  /** The state when the component first renders, with favourites loaded from
      storage; valid as long as the stored list has one record per id. */
  function Initial(stored: StoredFavs): (s: AppState)
    ensures s.favs == LoadFavs(stored) && s.results == [] && s.playingUrl.None?
    ensures s.query == "Drake" && s.status == IdleStatus && s.filter == All
    ensures (stored.Records? ==> UniqueIds(stored.favs)) ==> Valid(s)
  {
    AppState("Drake", IdleStatus, [], LoadFavs(stored), All, None)
  }

  /** The synchronous part of `searchItunes` for a non-blank term: the status
      shows progress and playback state is cleared. */
  function BeginSearch(s: AppState): (r: AppState)
    ensures r.status == SearchingStatus && r.playingUrl.None?
    ensures r.query == s.query && r.results == s.results && r.favs == s.favs && r.filter == s.filter
  {
    s.(status := SearchingStatus, playingUrl := None)
  }

  /** The asynchronous part of `searchItunes`: the request for `term` resolved. */
  function CompleteSearch(s: AppState, term: string, resp: Response): (r: AppState)
    ensures r.results == Resolve(s.results, term, resp).results
    ensures r.status == Resolve(s.results, term, resp).status
    ensures r.query == s.query && r.favs == s.favs && r.filter == s.filter && r.playingUrl == s.playingUrl
    ensures resp.Failure? ==> r.results == s.results && r.status == ErrorStatus
    ensures resp.Ok? ==>
      && r.results == resp.results.GetOr([])
      && (r.status == ShowingStatus(term) <==> |r.results| > 0)
      && (r.status == NoResultsStatus(term) <==> |r.results| == 0)
  {
    var o := Resolve(s.results, term, resp);
    s.(results := o.results, status := o.status)
  }

  /** `searchItunes(q)` with no other event between request and response: a
      blank term changes nothing; otherwise playback state is cleared and the
      results and status follow the response for the trimmed term. */
  function SearchItunes(s: AppState, q: string, resp: Response): (r: AppState)
    ensures IsBlank(q) ==> r == s
    ensures !IsBlank(q) ==>
      r.query == s.query && r.favs == s.favs && r.filter == s.filter && r.playingUrl.None?
    ensures !IsBlank(q) && resp.Failure? ==> r.results == s.results && r.status == ErrorStatus
    ensures !IsBlank(q) && resp.Ok? ==>
      && r.results == resp.results.GetOr([])
      && (r.status == ShowingStatus(Trim(q)) <==> |r.results| > 0)
      && (r.status == NoResultsStatus(Trim(q)) <==> |r.results| == 0)
  {
    var term := Trim(q);
    if term == "" then s else CompleteSearch(BeginSearch(s), term, resp)
  }

  /** The initial search for "Drake" issued when the component mounts. */
  function Mounted(stored: StoredFavs, resp: Response): (s: AppState)
    ensures s.favs == LoadFavs(stored) && s.query == "Drake" && s.filter == All && s.playingUrl.None?
    ensures resp.Ok? ==> s.results == resp.results.GetOr([])
    ensures resp.Ok? ==>
      && (s.status == ShowingStatus("Drake") <==> |s.results| > 0)
      && (s.status == NoResultsStatus("Drake") <==> |s.results| == 0)
    ensures resp.Failure? ==> s.results == [] && s.status == ErrorStatus
  {
    assert !IsBlank("Drake") by { assert !IsJsWhitespace("Drake"[0]); }
    assert Trim("Drake") == "Drake" by {
      assert LeadingSpace("Drake") == 0 && TrailingSpace("Drake") == 0;
    }
    SearchItunes(Initial(stored), "Drake", resp)
  }

  /** When two requests overlap, the one that resolves last decides the results
      and the status if it succeeded. */
  lemma LastResolutionWins(s: AppState, t1: string, r1: Response, t2: string, found: Option<seq<Track>>)
    ensures CompleteSearch(CompleteSearch(s, t1, r1), t2, Ok(found)) == CompleteSearch(s, t2, Ok(found))
  {
  }

  /** The events: typing, submitting the form (which stops audio, then starts
      `searchItunes(query)`), a pending request resolving, the favourite and
      filter buttons, the play/pause button, and the audio clip ending. */
  datatype Action =
    | SetQuery(text: string)
    | Submit
    | SearchDone(term: string, resp: Response)
    | ToggleFavourite(item: Track)
    | SetFilter(mode: FilterMode)
    | Play(url: Option<string>)
    | AudioEnded

  function Step(s: AppState, a: Action): (r: AppState)
    ensures Valid(s) ==> Valid(r)
    ensures !a.SetQuery? ==> r.query == s.query
    ensures !a.ToggleFavourite? ==> r.favs == s.favs
    ensures !a.SetFilter? ==> r.filter == s.filter
    ensures !(a.Submit? || a.SearchDone?) ==> r.results == s.results && r.status == s.status
    ensures a.Submit? ==> r.results == s.results && r.playingUrl.None?
    ensures a.ToggleFavourite? ==> IsFav(r.favs, a.item) == !IsFav(s.favs, a.item)
    ensures a.AudioEnded? ==> r.playingUrl.None?
    ensures a.SetQuery? ==> r.query == a.text
    ensures a.SetFilter? ==> r.filter == a.mode
    ensures a.Play? ==> r.playingUrl == PlayPreview(s.playingUrl, a.url)
    ensures !(a.Play? || a.Submit? || a.AudioEnded?) ==> r.playingUrl == s.playingUrl
    ensures a.ToggleFavourite? ==> r.favs == ToggleFav(s.favs, a.item)
    ensures a.Submit? ==> r.status == if IsBlank(s.query) then s.status else SearchingStatus
    ensures a.SearchDone? ==>
      && r.results == Resolve(s.results, a.term, a.resp).results
      && r.status == Resolve(s.results, a.term, a.resp).status
  {
    match a
    case SetQuery(text) => s.(query := text)
    case Submit =>
      var stopped := s.(playingUrl := StopAudio(s.playingUrl));
      if IsBlank(s.query) then stopped else BeginSearch(stopped)
    case SearchDone(term, resp) => CompleteSearch(s, term, resp)
    case ToggleFavourite(item) => s.(favs := ToggleFav(s.favs, item))
    case SetFilter(mode) => s.(filter := mode)
    case Play(url) => s.(playingUrl := PlayPreview(s.playingUrl, url))
    case AudioEnded => s.(playingUrl := None)
  }

  function Run(s: AppState, actions: seq<Action>): AppState
    decreases |actions|
  {
    if |actions| == 0 then s else Run(Step(s, actions[0]), actions[1..])
  }

  /** Every sequence of events keeps the invariant. */
  lemma {:induction false} RunPreservesValid(s: AppState, actions: seq<Action>)
    requires Valid(s)
    ensures Valid(Run(s, actions))
    decreases |actions|
  {
    if |actions| > 0 {
      RunPreservesValid(Step(s, actions[0]), actions[1..]);
    }
  }

  /** Submitting a non-blank query and then receiving its response is exactly
      `searchItunes(query)` after `stopAudio()`. */
  lemma SubmitThenResolve(s: AppState, resp: Response)
    requires !IsBlank(s.query)
    ensures Step(Step(s, Submit), SearchDone(Trim(s.query), resp))
         == SearchItunes(s.(playingUrl := None), s.query, resp)
  {
  }
}
