/** The preload bookkeeping of the two audio elements: the module variable
    `preloadedIndex` and the `src` of the standby element `audioPre`, as
    `preloadNextIfNeeded` and `switchTo` update them. */
module Preload {
  import opened Wrappers
  import opened Tracks

  /** `preloadedIndex` (-1 when nothing is ready) and `audioPre.src`
      ("" while it has none). */
  datatype Slot = Slot(preloadedIndex: int, src: string)

  /** The slot at page load. */
  const Initial: Slot := Slot(-1, "")

  /** The slot's invariant: a recorded index names a track, and the standby
      element holds that track's file. */
  predicate Consistent(s: Slot, tracks: seq<Track>)
  {
    s.preloadedIndex == -1 || (0 <= s.preloadedIndex < |tracks| && s.src == tracks[s.preloadedIndex].file)
  }

  /** `preloadNextIfNeeded(nextIndex)`, where `settles` says whether the wait
      for the standby element's `canplay` or `error` event ever completes. A
      request for the index already recorded does nothing; any other request
      first forgets the recorded index; a request for a real track loads its
      file into the standby element and records the index once the wait ends. */
  function PreloadNextIfNeeded(s: Slot, tracks: seq<Track>, nextIndex: Option<int>, settles: bool): (r: Slot)
    ensures Consistent(s, tracks) ==> Consistent(r, tracks)
    ensures Consistent(s, tracks) && settles && TrackAt(tracks, nextIndex).Some? ==>
              r == Slot(nextIndex.value, TrackAt(tracks, nextIndex).value.file)
    ensures nextIndex == Some(s.preloadedIndex) ==> r == s
    ensures nextIndex != Some(s.preloadedIndex) && TrackAt(tracks, nextIndex).None? ==> r == s.(preloadedIndex := -1)
    ensures nextIndex != Some(s.preloadedIndex) && TrackAt(tracks, nextIndex).Some? ==>
              r == Slot(if settles then nextIndex.value else -1, TrackAt(tracks, nextIndex).value.file)
    ensures TrackAt(tracks, nextIndex).None? ==> r.src == s.src
  {
    if nextIndex == Some(s.preloadedIndex) then s
    else
      match TrackAt(tracks, nextIndex)
      case None => s.(preloadedIndex := -1)
      case Some(t) => Slot(if settles then nextIndex.value else -1, t.file)
  }

  /** What `switchTo(index)` does to the audible element and the slot. */
  datatype Switch = Switch(audioSrc: string, slot: Slot, fastPath: bool)

  /** `switchTo(index)` up to its background and next-preload calls: an index
      with no track changes nothing; the fast path, taken exactly when the
      index is the recorded one and the standby element has a source, hands
      that source to the audible element and consumes the slot; the slow path
      loads the track's own file. */
  function SwitchTo(s: Slot, tracks: seq<Track>, index: Option<int>, audioSrc: string): (r: Switch)
    ensures TrackAt(tracks, index).None? ==> r == Switch(audioSrc, s, false)
    ensures r.fastPath <==> TrackAt(tracks, index).Some? && index == Some(s.preloadedIndex) && s.src != ""
    ensures r.fastPath ==> r.slot == s.(preloadedIndex := -1)
    ensures !r.fastPath ==> r.slot == s
    ensures Consistent(s, tracks) ==> Consistent(r.slot, tracks)
  {
    match TrackAt(tracks, index)
    case None => Switch(audioSrc, s, false)
    case Some(t) =>
      if index == Some(s.preloadedIndex) && s.src != "" then
        Switch(s.src, s.(preloadedIndex := -1), true)
      else
        Switch(t.file, s, false)
  }

  /** Whichever path it takes, a switch on a consistent slot makes the audible
      element play the requested track's file, even when the slot was filled
      for a track that has since stopped being the next one. */
  lemma SwitchPlaysRequestedTrack(s: Slot, tracks: seq<Track>, index: Option<int>, audioSrc: string)
    requires Consistent(s, tracks) && TrackAt(tracks, index).Some?
    ensures SwitchTo(s, tracks, index, audioSrc).audioSrc == TrackAt(tracks, index).value.file
  {
  }

  /** Once a preload has settled, asking again for the same index changes
      nothing: no second load of the standby element. */
  lemma SettledPreloadIsIdempotent(s: Slot, tracks: seq<Track>, i: Option<int>, settles: bool)
    ensures var once := PreloadNextIfNeeded(s, tracks, i, true);
            PreloadNextIfNeeded(once, tracks, i, settles) == once
  {
  }

  /** While a preload has not settled its index is not recorded, so a second
      request for the same track is not short-circuited: it loads the
      standby element again, and records the index if that load settles. */
  lemma UnsettledPreloadIsRequestedAgain(s: Slot, tracks: seq<Track>, i: int)
    requires 0 <= i < |tracks| && s.preloadedIndex != i
    ensures var pending := PreloadNextIfNeeded(s, tracks, Some(i), false);
            && pending == Slot(-1, tracks[i].file)
            && PreloadNextIfNeeded(pending, tracks, Some(i), true) == Slot(i, tracks[i].file)
  {
  }
}
