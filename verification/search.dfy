/** The outcome of one catalogue search and the status line it produces. The
    HTTP request is replaced by its abstract outcome. */
module Search {
  import opened Wrappers
  import opened Tracks

  /** What a search request came back with: a failure (network error,
      non-success status, unreadable body) or a JSON object whose `results`
      field may be absent. */
  datatype Response = Failure | Ok(results: Option<seq<Track>>)

  const IdleStatus: string := "Type a search and press Enter."
  const SearchingStatus: string := "Searching..."
  const ErrorStatus: string := "Something went wrong. Try again."

  function ShowingStatus(term: string): string {
    "Showing results for \"" + term + "\"."
  }

  function NoResultsStatus(term: string): string {
    "No results for \"" + term + "\". Try another search."
  }

  /** Results and status once a request for `term` has resolved. */
  datatype Resolved = Resolved(results: seq<Track>, status: string)

  /** The three outcome messages differ from one another and from the progress
      message, and each names its term, so the status line tells the user
      which outcome occurred and for what term. */
  lemma StatusesDistinguishOutcomes(t1: string, t2: string)
    ensures ShowingStatus(t1) != NoResultsStatus(t2)
    ensures ShowingStatus(t1) != ErrorStatus && NoResultsStatus(t1) != ErrorStatus
    ensures ShowingStatus(t1) != SearchingStatus && NoResultsStatus(t1) != SearchingStatus
    ensures ErrorStatus != SearchingStatus
    ensures ShowingStatus(t1) == ShowingStatus(t2) ==> t1 == t2
    ensures NoResultsStatus(t1) == NoResultsStatus(t2) ==> t1 == t2
  {
    assert ShowingStatus(t1)[0] == 'S' && NoResultsStatus(t2)[0] == 'N';
    assert ShowingStatus(t1)[1] == 'h' && ErrorStatus[1] == 'o';
    assert NoResultsStatus(t1)[0] == 'N' && ErrorStatus[0] == 'S';
    assert SearchingStatus[0] == 'S' && SearchingStatus[1] == 'e';
    var pre1 := "Showing results for \"";
    if ShowingStatus(t1) == ShowingStatus(t2) {
      assert |t1| == |t2|;
      forall i | 0 <= i < |t1| ensures t1[i] == t2[i] {
        assert ShowingStatus(t1)[|pre1| + i] == t1[i];
        assert ShowingStatus(t2)[|pre1| + i] == t2[i];
      }
    }
    var pre2 := "No results for \"";
    if NoResultsStatus(t1) == NoResultsStatus(t2) {
      assert |t1| == |t2|;
      forall i | 0 <= i < |t1| ensures t1[i] == t2[i] {
        assert NoResultsStatus(t1)[|pre2| + i] == t1[i];
        assert NoResultsStatus(t2)[|pre2| + i] == t2[i];
      }
    }
  }

  /** Resolution of a request for `term`: on success the results are the
      response's list (empty when the field is absent) and the status says
      whether any were found; on failure the previous results stay and the
      status reports the error. */
  function Resolve(previous: seq<Track>, term: string, resp: Response): (o: Resolved)
    ensures resp.Failure? ==> o.results == previous && o.status == ErrorStatus
    ensures resp.Ok? && resp.results.Some? ==> o.results == resp.results.value
    ensures resp.Ok? && resp.results.None? ==> o.results == []
    ensures resp.Ok? ==> (o.status == ShowingStatus(term) <==> |o.results| > 0)
    ensures resp.Ok? ==> (o.status == NoResultsStatus(term) <==> |o.results| == 0)
  {
    StatusesDistinguishOutcomes(term, term);
    match resp
    case Failure => Resolved(previous, ErrorStatus)
    case Ok(field) =>
      var list := field.GetOr([]);
      Resolved(list, if |list| > 0 then ShowingStatus(term) else NoResultsStatus(term))
  }

  /** A response without a `results` field is handled exactly like one with an
      empty list. */
  lemma AbsentResultsAreEmpty(previous: seq<Track>, term: string)
    ensures Resolve(previous, term, Ok(None)) == Resolve(previous, term, Ok(Some([])))
  {
  }
}
