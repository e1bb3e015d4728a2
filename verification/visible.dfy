/** The list of results on screen: all of them, or only the favourites. */
module Visible {
  import opened Wrappers
  import opened Seqs
  import opened Tracks
  import opened Favourites

  /** The filter buttons: "all" or "favs". */
  datatype FilterMode = All | FavsOnly

  /** The filter predicate of the favourites view: results whose id is in `ids`. */
  function IdIn(ids: set<int>): Track -> bool {
    (r: Track) => r.trackId in ids
  }

  /** The `visible` memo: under "favs", the results whose track id is among the
      favourites, in result order; otherwise the results themselves. */
  function VisibleList(results: seq<Track>, favs: Favs, filter: FilterMode): (v: seq<Track>)
    ensures filter == All ==> v == results
    ensures filter == FavsOnly ==>
      && IsSubsequence(v, results)
      && (forall t :: t in v <==> t in results && IsFav(favs, t))
      && (forall t :: multiset(v)[t] == if IsFav(favs, t) then multiset(results)[t] else 0)
  {
    match filter
    case FavsOnly =>
      var favSet := Ids(favs);
      FilterIsSubsequence(results, IdIn(favSet));
      FilterCounts(results, IdIn(favSet));
      Filter(results, IdIn(favSet))
    case All => results
  }

  /** Favouriting a result that was not a favourite makes it appear in the
      favourites view; unfavouriting it makes it disappear. */
  lemma ToggleShowsInFavsView(results: seq<Track>, favs: Favs, item: Track)
    requires item in results
    ensures item in VisibleList(results, ToggleFav(favs, item), FavsOnly) <==> !IsFav(favs, item)
  {
  }

  /** The favourites view of the results [1, 2, 3] with favourites {2, 3} is [2, 3]. */
  lemma ExampleFavsView(a: Track, b: Track, c: Track, f2: FavRecord, f3: FavRecord)
    requires a.trackId == 1 && b.trackId == 2 && c.trackId == 3
    requires f2.trackId == 2 && f3.trackId == 3
    ensures VisibleList([a, b, c], [f2, f3], FavsOnly) == [b, c]
  {
    var favs := [f2, f3];
    var favSet := Ids(favs);
    assert 2 in favSet by { assert favs[0] in favs; }
    assert 3 in favSet by { assert favs[1] in favs; }
    assert 1 !in favSet;
    var p := IdIn(favSet);
    var s := [a, b, c];
    assert s[1..] == [b, c] && s[1..][1..] == [c] && s[1..][1..][1..] == [];
    assert Filter(s[1..][1..], p) == [c] + Filter([], p);
    assert Filter(s[1..], p) == [b] + Filter(s[1..][1..], p);
    assert Filter(s, p) == Filter(s[1..], p);
  }
}
