/** The favourites list: a sequence of records used as a set keyed by `trackId`,
    newest first. */
module Favourites {
  import opened Wrappers
  import opened Seqs
  import opened Tracks

  type Favs = seq<FavRecord>

  /** The track ids present in the list. */
  function Ids(favs: Favs): set<int> {
    set f | f in favs :: f.trackId
  }

  /** At most one record per track id. */
  predicate UniqueIds(favs: Favs) {
    forall i, j :: 0 <= i < j < |favs| ==> favs[i].trackId != favs[j].trackId
  }

  /** `isFav(item)`: some favourite has the item's track id. */
  function IsFav(favs: Favs, item: Track): (b: bool)
    ensures b <==> exists i :: 0 <= i < |favs| && favs[i].trackId == item.trackId
    ensures b <==> item.trackId in Ids(favs)
  {
    var b := Any(favs, (f: FavRecord) => f.trackId == item.trackId);
    assert b ==> item.trackId in Ids(favs);
    assert item.trackId in Ids(favs) ==> exists i :: 0 <= i < |favs| && favs[i].trackId == item.trackId;
    b
  }

  /** The filter predicate of `toggleFav`: records of other tracks than `id`. */
  function OtherThan(id: int): FavRecord -> bool {
    (f: FavRecord) => f.trackId != id
  }

  /** The list with every record of track `id` filtered out. */
  function WithoutId(favs: Favs, id: int): Favs {
    Filter(favs, OtherThan(id))
  }

  lemma {:induction false} WithoutIdKeepsUnique(favs: Favs, id: int)
    requires UniqueIds(favs)
    ensures UniqueIds(WithoutId(favs, id))
  {
    if |favs| > 0 {
      var tail := favs[1..];
      assert UniqueIds(tail) by {
        forall i, j | 0 <= i < j < |tail| ensures tail[i].trackId != tail[j].trackId {
          assert tail[i] == favs[i + 1] && tail[j] == favs[j + 1];
        }
      }
      WithoutIdKeepsUnique(tail, id);
      var rest := WithoutId(tail, id);
      forall x | x in tail ensures x.trackId != favs[0].trackId {
        var k :| 0 <= k < |tail| && tail[k] == x;
        assert favs[k + 1] == x;
      }
      if favs[0].trackId != id {
        var r := [favs[0]] + rest;
        assert WithoutId(favs, id) == r;
        forall i, j | 0 <= i < j < |r| ensures r[i].trackId != r[j].trackId {
          if i == 0 {
            assert r[j] == rest[j - 1] && r[j] in tail;
          } else {
            assert r[i] == rest[i - 1] && r[j] == rest[j - 1];
          }
        }
      } else {
        assert WithoutId(favs, id) == rest;
      }
    }
  }

  /** Removing the records of a favourite track: the track is no longer a
      favourite, the other records stay in order, and ids stay unique. */
  lemma RemoveFavFacts(favs: Favs, item: Track)
    requires IsFav(favs, item)
    ensures var r := WithoutId(favs, item.trackId);
      && !IsFav(r, item)
      && IsSubsequence(r, favs)
      && (forall f :: f in r <==> f in favs && f.trackId != item.trackId)
      && (forall f :: multiset(r)[f] == if f.trackId == item.trackId then 0 else multiset(favs)[f])
      && Ids(r) == Ids(favs) - {item.trackId}
      && (UniqueIds(favs) ==> UniqueIds(r))
  {
    FilterIsSubsequence(favs, OtherThan(item.trackId));
    FilterCounts(favs, OtherThan(item.trackId));
    if UniqueIds(favs) {
      WithoutIdKeepsUnique(favs, item.trackId);
    }
  }

  /** Prepending the projection of a track that is not a favourite: it becomes
      one, its id joins the id set, and ids stay unique. */
  lemma AddFavFacts(favs: Favs, item: Track)
    requires !IsFav(favs, item)
    ensures var r := [Project(item)] + favs;
      && IsFav(r, item)
      && Ids(r) == Ids(favs) + {item.trackId}
      && (UniqueIds(favs) ==> UniqueIds(r))
  {
  }

  /** `toggleFav(item)`: remove every record of the item's track id when there is
      one, otherwise put the item's projection at the front. */
  function ToggleFav(favs: Favs, item: Track): (r: Favs)
    ensures IsFav(r, item) == !IsFav(favs, item)
    ensures !IsFav(favs, item) ==> |r| == |favs| + 1 && r[0] == Project(item) && r[1..] == favs
    ensures IsFav(favs, item) ==>
      && IsSubsequence(r, favs)
      && (forall f :: f in r <==> f in favs && f.trackId != item.trackId)
      && (forall f :: multiset(r)[f] == if f.trackId == item.trackId then 0 else multiset(favs)[f])
    ensures Ids(r) == if IsFav(favs, item) then Ids(favs) - {item.trackId} else Ids(favs) + {item.trackId}
    ensures UniqueIds(favs) ==> UniqueIds(r)
  {
    if IsFav(favs, item) then
      RemoveFavFacts(favs, item);
      WithoutId(favs, item.trackId)
    else
      AddFavFacts(favs, item);
      [Project(item)] + favs
  }

  /** Toggling a track that is not a favourite twice gives back the original list. */
  lemma ToggleTwiceRestores(favs: Favs, item: Track)
    requires !IsFav(favs, item)
    ensures ToggleFav(ToggleFav(favs, item), item) == favs
  {
    var once := ToggleFav(favs, item);
    assert once == [Project(item)] + favs;
    assert once[1..] == favs;
    FilterKeepsAll(favs, OtherThan(item.trackId));
  }

  /** How a favourites list is found in storage: no entry, an entry that does not
      parse, or a parsed list of records. */
  datatype StoredFavs = Missing | Corrupt | Records(favs: Favs)

  /** `loadFavs`: a missing or unparseable entry gives the empty list; loading
      never fails. */
  function LoadFavs(stored: StoredFavs): (r: Favs)
    ensures stored.Records? ==> r == stored.favs
    ensures !stored.Records? ==> r == []
  {
    match stored
    case Records(favs) => favs
    case _ => []
  }
}
