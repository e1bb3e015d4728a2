/** Preview playback, reduced to which preview URL (if any) is playing. The
    audio element itself (play, pause, rebinding its source) is not modelled. */
module Playback {
  import opened Wrappers

  /** JavaScript truthiness of a preview URL: present and non-empty. */
  predicate Truthy(url: Option<string>) {
    url.Some? && url.value != ""
  }

  /** The playing URL is never the empty string. */
  predicate ValidPlaying(playing: Option<string>) {
    playing.None? || playing.value != ""
  }

  /** `playPreview(url)`: a falsy URL does nothing; the URL already playing is
      paused; any other URL starts playing in place of the current one. */
  function PlayPreview(playing: Option<string>, url: Option<string>): (r: Option<string>)
    ensures !Truthy(url) ==> r == playing
    ensures Truthy(url) ==> (r == url <==> playing != url)
    ensures Truthy(url) ==> (r.None? <==> playing == url)
    ensures ValidPlaying(playing) ==> ValidPlaying(r)
  {
    if !Truthy(url) then playing
    else if playing == url then None
    else url
  }

  /** `stopAudio()`: nothing is playing afterwards, whatever was before. */
  function StopAudio(playing: Option<string>): (r: Option<string>)
    ensures r.None?
  {
    None
  }

  /** Pressing play twice on a preview that was not playing plays it, then pauses it. */
  lemma PlayTwiceStops(playing: Option<string>, url: Option<string>)
    requires Truthy(url) && playing != url
    ensures PlayPreview(playing, url) == url
    ensures PlayPreview(PlayPreview(playing, url), url) == None
  {
  }

  /** Pressing play on a second preview while a first one plays switches to it. */
  lemma SwitchPlaysNew(u1: string, u2: string)
    requires u1 != "" && u2 != "" && u1 != u2
    ensures PlayPreview(Some(u1), Some(u2)) == Some(u2)
  {
  }

  /** Pressing play three times on the same preview is the same as pressing it once. */
  lemma PlayThriceIsOnce(playing: Option<string>, url: Option<string>)
    ensures PlayPreview(PlayPreview(PlayPreview(playing, url), url), url) == PlayPreview(playing, url)
  {
  }
}
