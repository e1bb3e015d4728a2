/** The records the application handles: catalogue entries returned by a search
    and the favourite records it keeps in storage. Display fields that the
    catalogue may omit (or send as `null`) are `Option`s. */
module Tracks {
  import opened Wrappers

  /** One catalogue search result. `otherFields` stands for the rest of the
      entry (prices, genre, release date, ...), which the application never
      reads but which a result carries. */
  datatype Track = Track(
    trackId: int,
    trackName: Option<string>,
    artistName: Option<string>,
    collectionName: Option<string>,
    artworkUrl100: Option<string>,
    previewUrl: Option<string>,
    otherFields: map<string, string>)

  /** A favourite: exactly the six fields of a track that are persisted. */
  datatype FavRecord = FavRecord(
    trackId: int,
    trackName: Option<string>,
    artistName: Option<string>,
    collectionName: Option<string>,
    artworkUrl100: Option<string>,
    previewUrl: Option<string>)

  /** The favourite record stored for a track: its six persisted fields. */
  function Project(t: Track): FavRecord {
    FavRecord(t.trackId, t.trackName, t.artistName, t.collectionName, t.artworkUrl100, t.previewUrl)
  }
}
