/** The track list loaded at startup and the per-file tag overrides. */
module Tracks {
  import opened Wrappers

  /** One entry of the track list; only the fields the player logic reads. */
  datatype Track = Track(file: string, title: string)

  /** One entry of the tag map; `bgTag` is "" when the entry has no (truthy) tag. */
  datatype TagEntry = TagEntry(bgTag: string)

  /** `STATE.tracks[i]`: the track at index `i`, or None (`undefined`) for an
      absent index or one outside the list. */
  function TrackAt(tracks: seq<Track>, i: Option<int>): (r: Option<Track>)
    ensures r.Some? <==> i.Some? && 0 <= i.value < |tracks|
    ensures r.Some? ==> r.value == tracks[i.value]
  {
    if i.Some? && 0 <= i.value < |tracks| then Some(tracks[i.value]) else None
  }
}
