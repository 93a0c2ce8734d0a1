/** The player state machine of player.js: the shared `STATE` object, the
    module variable `preloadedIndex` and the sources of the two audio elements,
    updated in place by the transport commands, the preloader and the
    background pipeline. Each asynchronous wait is replaced by its outcome,
    given as an input. */
module Player {
  import opened Wrappers
  import opened Tools
  import opened Tracks
  import opened Queue
  import opened SettingsStore
  import Preload
  import Background

  /** What the collaborators of one track switch report: the URL the image
      search returned (None on failure or no result), whether that image
      decoded, and whether the standby element's `canplay`/`error` wait
      completed. */
  datatype Outcomes = Outcomes(imageUrl: Option<string>, imageDecoded: bool, preloadSettles: bool)

  /** The part of the state a track switch changes: the audible element's
      source, the preload slot and the background cache. */
  datatype Playback = Playback(audioSrc: string, slot: Preload.Slot, bg: Background.BgCache)

  /** The startup queue as `boot` builds it: lines 98-99 run before the saved
      settings are restored, so the order always follows the initial shuffle
      setting (on), whatever the stored record says. */
  function BootQueueAsWritten(n: nat, stored: StoredRecord, choices: seq<int>): (q: seq<int>)
    requires ValidChoices(choices, n)
    ensures IsQueueOf(q, n)
    ensures q == Shuffled(Identity(n), choices)
  {
    StartupQueue(n, Defaults.shuffle, choices)
  }

  /** With shuffle saved as off, the startup queue as written is still
      shuffled: two tracks and the draw that swaps them give [1, 0], while the
      restored setting (and the checkbox showing it) says the order is [0, 1]. */
  lemma BootQueueIgnoresSavedShuffle()
    ensures var stored := Parsed(Save(Defaults.(shuffle := false)));
            && !Restore(stored, Defaults).shuffle
            && BootQueueAsWritten(2, stored, [0, 0]) == [1, 0]
            && BootQueueAsWritten(2, stored, [0, 0]) != Identity(2)
  {
    var s := Identity(2);
    assert s == [0, 1];
    assert Swap(s, 1, 0) == [1, 0];
    assert ShuffleSteps(s, [0, 0], 1) == ShuffleSteps([1, 0], [0, 0], 0) == [1, 0];
  }

  /** The startup queue with the saved settings restored first: a queue of the
      n tracks, in identity order exactly when the restored shuffle is off. */
  function BootQueue(n: nat, stored: StoredRecord, choices: seq<int>): (q: seq<int>)
    requires ValidChoices(choices, n)
    ensures IsQueueOf(q, n)
    ensures !Restore(stored, Defaults).shuffle ==> q == Identity(n)
    ensures Restore(stored, Defaults).shuffle ==> q == Shuffled(Identity(n), choices)
  {
    StartupQueue(n, Restore(stored, Defaults).shuffle, choices)
  }

  /** The state of one page: `STATE`, `preloadedIndex`, and the `src` of the
      audible element `audio` and of the standby element `audioPre`. */
  class PlayerState {
    const tracks: seq<Track>
    const tagsMap: map<string, TagEntry>
    /** `encodeURI`, left uninterpreted. */
    const encodeUri: string -> string

    var queue: seq<int>
    var qIndex: nat
    var settings: Settings
    /** The stored `tm_settings` entry. */
    var storage: StoredRecord

    var preloadedIndex: int
    var preloadSrc: string
    var audioSrc: string

    var bgCurrentUrl: Option<string>
    var bgNextUrl: Option<string>

    /** The queue names every track once, the cursor is inside it (or 0 on an
        empty queue), and the preload slot is consistent. */
    ghost predicate Valid()
      reads this
    {
      && IsQueueOf(queue, |tracks|)
      && (qIndex < |queue| || (queue == [] && qIndex == 0))
      && Preload.Consistent(PreloadSlot(), tracks)
    }

    function PreloadSlot(): (r: Preload.Slot)
      reads this
    {
      Preload.Slot(preloadedIndex, preloadSrc)
    }

    function BgState(): (r: Background.BgCache)
      reads this
    {
      Background.BgCache(bgCurrentUrl, bgNextUrl)
    }

    function PlaybackState(): (r: Playback)
      reads this
    {
      Playback(audioSrc, PreloadSlot(), BgState())
    }

    /** `STATE.queue[STATE.qIndex]`. */
    function CurrentIndex(): (r: Option<int>)
      reads this
    {
      if qIndex < |queue| then Some(queue[qIndex]) else None
    }

    /** `currentTrack()`. */
    function CurrentTrack(): (r: Option<Track>)
      reads this
      ensures r.Some? <==> qIndex < |queue| && 0 <= queue[qIndex] < |tracks|
      ensures r.Some? ==> r.value == tracks[queue[qIndex]]
    {
      TrackAt(tracks, CurrentIndex())
    }

    /** `getNextIndex(cur)`, reading the state only. */
    function NextIndex(cur: Option<int>): (r: Option<int>)
      reads this
    {
      PeekNext(queue, qIndex, settings.repeatOne, cur)
    }

    /** The playback part of the state after `switchTo(index)`, from the one
        before it: the audible source and slot as the switch leaves them, the
        background after an unforced update when the background is enabled,
        and then the preload of the track after `index`. A switch from a
        consistent slot plays the requested track's own file, and once the
        preload settles, a switch to the track after `index` can take the fast
        path. */
    function AfterSwitch(before: Playback, index: Option<int>, o: Outcomes): (r: Playback)
      reads this
      ensures TrackAt(tracks, index).None? ==> r == before
      ensures Preload.Consistent(before.slot, tracks) ==> Preload.Consistent(r.slot, tracks)
      ensures Preload.Consistent(before.slot, tracks) && TrackAt(tracks, index).Some? ==>
                r.audioSrc == TrackAt(tracks, index).value.file
      ensures TrackAt(tracks, index).Some? ==>
                r.slot == Preload.PreloadNextIfNeeded(Preload.SwitchTo(before.slot, tracks, index, before.audioSrc).slot,
                                                      tracks, NextIndex(index), o.preloadSettles)
      ensures TrackAt(tracks, index).Some? ==>
                r.bg == if settings.bgEnabled
                        then Background.UpdateDanbooruBackground(before.bg, TrackAt(tracks, index), tagsMap, encodeUri,
                                                                 settings.bgTag, settings.bgRating, false,
                                                                 o.imageUrl, o.imageDecoded).cache
                        else before.bg
      ensures && Preload.Consistent(before.slot, tracks) && TrackAt(tracks, index).Some? && o.preloadSettles
              && TrackAt(tracks, NextIndex(index)).Some? && TrackAt(tracks, NextIndex(index)).value.file != "" ==>
                Preload.SwitchTo(r.slot, tracks, NextIndex(index), r.audioSrc).fastPath
    {
      match TrackAt(tracks, index)
      case None => before
      case Some(t) =>
        var sw := Preload.SwitchTo(before.slot, tracks, index, before.audioSrc);
        var bg := if settings.bgEnabled
                  then Background.UpdateDanbooruBackground(before.bg, Some(t), tagsMap, encodeUri, settings.bgTag,
                                                           settings.bgRating, false, o.imageUrl, o.imageDecoded).cache
                  else before.bg;
        Playback(sw.audioSrc, Preload.PreloadNextIfNeeded(sw.slot, tracks, NextIndex(index), o.preloadSettles), bg)
    }

    /** Gapless playback: once the preload started by playing the current
        track settles, a switch to the track `getNextIndex` names takes the
        fast path, handing the standby element's source to the audible
        element. With repeat-one off that track is the one `next()` moves
        to. (Under repeat-one the `ended` handler restarts the audible element
        instead of switching.) Track files are taken to be non-empty: see the
        README for what the page does with an empty one. */
    lemma CurrentSwitchPreloadsNext(o: Outcomes)
      requires Valid() && queue != [] && o.preloadSettles
      requires forall k :: 0 <= k < |tracks| ==> tracks[k].file != ""
      ensures NextIndex(CurrentIndex()).Some?
      ensures !settings.repeatOne ==> NextIndex(CurrentIndex()) == Some(queue[NextCursor(qIndex, |queue|)])
      ensures var after := AfterSwitch(PlaybackState(), CurrentIndex(), o);
              Preload.SwitchTo(after.slot, tracks, NextIndex(CurrentIndex()), after.audioSrc).fastPath
    {
      QueueOfExactlyOnce(queue, |tracks|);
      assert queue[qIndex] in queue;
      var nxt := NextIndex(CurrentIndex());
      assert nxt.value in queue;
    }

    /** `boot` up to the first track: the loaded track list and tag map, the
        saved settings restored, and the queue built from the restored
        shuffle setting (see BootQueueAsWritten for the order as written). */
    constructor (tracks: seq<Track>, tagsMap: map<string, TagEntry>, encodeUri: string -> string,
                 stored: StoredRecord, choices: seq<int>)
      requires ValidChoices(choices, |tracks|)
      ensures Valid()
      ensures this.tracks == tracks && this.tagsMap == tagsMap && this.encodeUri == encodeUri
      ensures settings == Restore(stored, Defaults) && storage == stored
      ensures queue == BootQueue(|tracks|, stored, choices) && qIndex == 0
      ensures PreloadSlot() == Preload.Initial && audioSrc == "" && BgState() == Background.Empty
    {
      var restored := Restore(stored, Defaults);
      var order := Identity(|tracks|);
      if restored.shuffle {
        order := ShuffleArray(order, choices);
      }
      this.tracks := tracks;
      this.tagsMap := tagsMap;
      this.encodeUri := encodeUri;
      queue := order;
      qIndex := 0;
      settings := restored;
      storage := stored;
      preloadedIndex := -1;
      preloadSrc := "";
      audioSrc := "";
      bgCurrentUrl := None;
      bgNextUrl := None;
    }

    /** The end of `boot`: play the current track, then ask again for the
        preload of the one after it. */
    method Start(o: Outcomes)
      requires Valid()
      modifies this`audioSrc, this`preloadedIndex, this`preloadSrc, this`bgCurrentUrl, this`bgNextUrl
      ensures Valid()
      ensures var switched := AfterSwitch(old(PlaybackState()), CurrentIndex(), o);
              PlaybackState() == switched.(slot := Preload.PreloadNextIfNeeded(switched.slot, tracks,
                                                                          NextIndex(CurrentIndex()), o.preloadSettles))
      ensures queue != [] ==> CurrentTrack().Some? && audioSrc == CurrentTrack().value.file
    {
      PlayCurrent(o);
      var nxt := NextIndex(CurrentIndex());
      PreloadNextIfNeeded(nxt, o.preloadSettles);
    }

    /** `saveSettings`: the stored entry becomes the record of the seven
        settings, which a later restore reads back unchanged. */
    method SaveSettings()
      modifies this`storage
      ensures storage == Parsed(Save(settings))
      ensures Restore(storage, Defaults) == settings
    {
      storage := Parsed(Save(settings));
      RestoreSaved(settings, Defaults);
    }

    /** `swapBgNow`. */
    method SwapBgNow()
      modifies this`bgCurrentUrl, this`bgNextUrl
      ensures BgState() == Background.SwapBgNow(old(BgState()))
    {
      if !Background.Present(bgNextUrl) {
        return;
      }
      var tmpUrl := bgCurrentUrl;
      bgCurrentUrl := bgNextUrl;
      bgNextUrl := if Background.Present(tmpUrl) then tmpUrl else None;
    }

    /** `updateDanbooruBackground(track, force)`; returns the search it ran. */
    method UpdateDanbooruBackground(track: Option<Track>, force: bool, o: Outcomes) returns (query: Option<Background.BgQuery>)
      modifies this`bgCurrentUrl, this`bgNextUrl
      ensures var u := Background.UpdateDanbooruBackground(old(BgState()), track, tagsMap, encodeUri, settings.bgTag,
                                                           settings.bgRating, force, o.imageUrl, o.imageDecoded);
              BgState() == u.cache && query == u.query
    {
      if track.None? {
        return None;
      }
      var tag := Background.ParseTagFromTrack(track.value, tagsMap, encodeUri, settings.bgTag);
      var rating := if settings.bgRating != "" then settings.bgRating else "safe";
      if !force && Background.Present(bgNextUrl) {
        SwapBgNow();
        return None;
      }
      query := Some(Background.BgQuery(tag, rating));
      if !Background.Present(o.imageUrl) {
        return;
      }
      bgNextUrl := o.imageUrl;
      if o.imageDecoded {
        SwapBgNow();
      }
    }

    /** The refresh button: a forced update for the current track. */
    method RefreshBackground(o: Outcomes) returns (query: Option<Background.BgQuery>)
      modifies this`bgCurrentUrl, this`bgNextUrl
      ensures var u := Background.UpdateDanbooruBackground(old(BgState()), CurrentTrack(), tagsMap, encodeUri,
                                                           settings.bgTag, settings.bgRating, true, o.imageUrl, o.imageDecoded);
              BgState() == u.cache && query == u.query
    {
      query := UpdateDanbooruBackground(CurrentTrack(), true, o);
    }

    /** One tick of the rotation timer: an unforced update for the current
        track while the background is enabled. */
    method OnBgTimerTick(o: Outcomes)
      modifies this`bgCurrentUrl, this`bgNextUrl
      ensures !settings.bgEnabled ==> BgState() == old(BgState())
      ensures settings.bgEnabled ==>
                BgState() == Background.UpdateDanbooruBackground(old(BgState()), CurrentTrack(), tagsMap, encodeUri,
                                                                 settings.bgTag, settings.bgRating, false, o.imageUrl,
                                                                 o.imageDecoded).cache
    {
      if settings.bgEnabled {
        var query := UpdateDanbooruBackground(CurrentTrack(), false, o);
      }
    }

    /** `preloadNextIfNeeded(nextIndex)`. */
    method PreloadNextIfNeeded(nextIndex: Option<int>, settles: bool)
      requires Valid()
      modifies this`preloadedIndex, this`preloadSrc
      ensures Valid()
      ensures PreloadSlot() == Preload.PreloadNextIfNeeded(old(PreloadSlot()), tracks, nextIndex, settles)
    {
      if nextIndex == Some(preloadedIndex) {
        return;
      }
      preloadedIndex := -1;
      var t := TrackAt(tracks, nextIndex);
      if t.None? {
        return;
      }
      preloadSrc := t.value.file;
      if settles {
        preloadedIndex := nextIndex.value;
      }
    }

    /** `switchTo(index)`; returns whether the preloaded fast path was taken. */
    method SwitchTo(index: Option<int>, o: Outcomes) returns (fast: bool)
      requires Valid()
      modifies this`audioSrc, this`preloadedIndex, this`preloadSrc, this`bgCurrentUrl, this`bgNextUrl
      ensures Valid()
      ensures PlaybackState() == AfterSwitch(old(PlaybackState()), index, o)
      ensures fast == Preload.SwitchTo(old(PreloadSlot()), tracks, index, old(audioSrc)).fastPath
      ensures TrackAt(tracks, index).Some? ==> audioSrc == TrackAt(tracks, index).value.file
    {
      var t := TrackAt(tracks, index);
      if t.None? {
        return false;
      }
      if Some(preloadedIndex) == index && preloadSrc != "" {
        audioSrc := preloadSrc;
        preloadedIndex := -1;
        fast := true;
      } else {
        audioSrc := t.value.file;
        fast := false;
      }
      if settings.bgEnabled {
        var query := UpdateDanbooruBackground(t, false, o);
      }
      var willPre := NextIndex(index);
      PreloadNextIfNeeded(willPre, o.preloadSettles);
    }

    /** `playCurrent()`: switch to the track under the cursor. */
    method PlayCurrent(o: Outcomes)
      requires Valid()
      modifies this`audioSrc, this`preloadedIndex, this`preloadSrc, this`bgCurrentUrl, this`bgNextUrl
      ensures Valid()
      ensures PlaybackState() == AfterSwitch(old(PlaybackState()), CurrentIndex(), o)
      ensures queue != [] ==> CurrentTrack().Some? && audioSrc == CurrentTrack().value.file
    {
      QueueOfExactlyOnce(queue, |tracks|);
      assert queue != [] ==> queue[qIndex] in queue;
      var fast := SwitchTo(CurrentIndex(), o);
    }

    /** `next()`: on a non-empty queue the cursor moves one place on, wrapping
        to 0 after the last entry, and the new current track plays; the track
        now current is the one `getNextIndex` showed before, unless repeat-one
        is set. */
    method Next(o: Outcomes)
      requires Valid()
      modifies this`qIndex, this`audioSrc, this`preloadedIndex, this`preloadSrc, this`bgCurrentUrl, this`bgNextUrl
      ensures Valid()
      ensures qIndex == NextCursor(old(qIndex), |queue|)
      ensures queue == [] ==> PlaybackState() == old(PlaybackState())
      ensures queue != [] ==> PlaybackState() == AfterSwitch(old(PlaybackState()), CurrentIndex(), o)
      ensures queue != [] ==> CurrentTrack().Some? && audioSrc == CurrentTrack().value.file
      ensures !settings.repeatOne ==> CurrentIndex() == old(NextIndex(CurrentIndex()))
    {
      if |queue| == 0 {
        return;
      }
      qIndex := (qIndex + 1) % |queue|;
      PlayCurrent(o);
    }

    /** `prev()`: on a non-empty queue the cursor moves one place back,
        wrapping from 0 to the last entry, and the new current track plays. */
    method Prev(o: Outcomes)
      requires Valid()
      modifies this`qIndex, this`audioSrc, this`preloadedIndex, this`preloadSrc, this`bgCurrentUrl, this`bgNextUrl
      ensures Valid()
      ensures qIndex == PrevCursor(old(qIndex), |queue|)
      ensures queue == [] ==> PlaybackState() == old(PlaybackState())
      ensures queue != [] ==> PlaybackState() == AfterSwitch(old(PlaybackState()), CurrentIndex(), o)
      ensures queue != [] ==> CurrentTrack().Some? && audioSrc == CurrentTrack().value.file
    {
      if |queue| == 0 {
        return;
      }
      qIndex := (qIndex - 1 + |queue|) % |queue|;
      PlayCurrent(o);
    }

    /** The `ended` handler: under repeat-one the same element restarts (its
        position is not modelled, so nothing here changes); otherwise `next()`,
        which wraps at the end of the queue: there is no stop mode. */
    method OnEnded(o: Outcomes)
      requires Valid()
      modifies this`qIndex, this`audioSrc, this`preloadedIndex, this`preloadSrc, this`bgCurrentUrl, this`bgNextUrl
      ensures Valid()
      ensures settings.repeatOne ==> qIndex == old(qIndex) && PlaybackState() == old(PlaybackState())
      ensures !settings.repeatOne ==> qIndex == NextCursor(old(qIndex), |queue|)
      ensures !settings.repeatOne && queue != [] ==>
                PlaybackState() == AfterSwitch(old(PlaybackState()), CurrentIndex(), o)
                && CurrentIndex() == old(NextIndex(CurrentIndex()))
    {
      if !settings.repeatOne {
        Next(o);
      }
    }

    /** `rebuildQueueKeepingCurrent()`: a fresh queue for the current shuffle
        setting, rotated so that the track current before sits under the
        cursor, which becomes 0. */
    method RebuildQueueKeepingCurrent(choices: seq<int>)
      requires Valid() && ValidChoices(choices, |tracks|)
      modifies this`queue, this`qIndex
      ensures Valid()
      ensures queue == Rebuilt(StartupQueue(|tracks|, settings.shuffle, choices), old(CurrentIndex()))
      ensures qIndex == 0
      ensures CurrentIndex() == old(CurrentIndex())
    {
      QueueOfExactlyOnce(queue, |tracks|);
      var curTrackIdx := CurrentIndex();
      var newQueue := Identity(|tracks|);
      if settings.shuffle {
        newQueue := ShuffleArray(newQueue, choices);
      }
      assert newQueue == StartupQueue(|tracks|, settings.shuffle, choices);
      if curTrackIdx.Some? {
        assert queue[qIndex] in queue;
        RebuiltKeepsCurrent(newQueue, |tracks|, curTrackIdx.value);
      }
      var pos := if curTrackIdx.Some? then IndexOf(newQueue, curTrackIdx.value) else -1;
      if pos != -1 {
        qIndex := 0;
        queue := newQueue[pos..] + newQueue[..pos];
      } else {
        queue := newQueue;
        qIndex := 0;
      }
    }

    /** The shuffle checkbox: a change of the setting rebuilds the queue
        around the current track and saves the settings; setting it to its
        present value does nothing. */
    method SetShuffle(turnOn: bool, choices: seq<int>)
      requires Valid() && ValidChoices(choices, |tracks|)
      modifies this`settings, this`queue, this`qIndex, this`storage
      ensures Valid()
      ensures settings == old(settings).(shuffle := turnOn)
      ensures CurrentIndex() == old(CurrentIndex())
      ensures turnOn == old(settings.shuffle) ==> queue == old(queue) && qIndex == old(qIndex) && storage == old(storage)
      ensures turnOn != old(settings.shuffle) ==>
                && queue == Rebuilt(StartupQueue(|tracks|, turnOn, choices), old(CurrentIndex()))
                && qIndex == 0
                && storage == Parsed(Save(settings))
    {
      if turnOn != settings.shuffle {
        settings := settings.(shuffle := turnOn);
        RebuildQueueKeepingCurrent(choices);
        SaveSettings();
      }
    }
  }
}
