# Touhou music player: the player state machine in Dafny

This project models the core of the browser music player in
`assets/js/player.js`. It covers:

- the play queue and its cursor;
- the two audio elements, an audible one and a standby one that preloads the
  next track so that a switch can start at once;
- the background-image cache;
- the seven persisted settings.

The page keeps its state in one shared object, `STATE`, plus a module variable
`preloadedIndex`. The model is the class `Player.PlayerState`, whose methods
update those fields as the JavaScript functions do. The one exception is the
constructor: it restores the saved settings before it builds the queue, which
is the corrected startup order (see "## Findings"). Each method is specified by
a pure function, and the properties are proved about those functions:

- `Tools`: `clamp`, the identity order, and the Fisher–Yates `shuffleArray`.
  `shuffleArray` is a loop over a copied array, proved equal to a step function
  and to be a permutation of its input.
- `Queue`: `indexOf`, the rotation done by `rebuildQueueKeepingCurrent`, the
  `next`/`prev` cursor, and the `getNextIndex` peek.
- `Preload`: the `preloadedIndex` / `audioPre.src` slot, as
  `preloadNextIfNeeded` and `switchTo` update it.
- `Background`: `parseTagFromTrack`, `swapBgNow`, and the cache decision of
  `updateDanbooruBackground`.
- `SettingsStore`: the record `saveSettings` writes, and the coercion `boot`
  applies when it reads the record back.
- `Player`: the class, and the startup queue.

Every asynchronous wait is replaced by its outcome, given as an input
(`Player.Outcomes`):

- the URL the image search returned, or none;
- whether that image decoded;
- whether the standby element's `canplay`/`error` wait completed.

`Math.random()` is replaced by a sequence of draws. The draw for loop position
`i` lies in `[0, i]`.

A JavaScript `undefined` track index is `None`. `preloadedIndex` keeps the
source's `-1` sentinel.

The model follows the code, including these behaviours:

- There is no "stop at the end" mode. `next()` always wraps, and the `ended`
  handler either replays the track or calls `next()`.
- `preloadNextIfNeeded` short-circuits only once an earlier preload of the
  same index has settled. A request repeated while the first is still waiting
  loads the standby element again (`Preload.UnsettledPreloadIsRequestedAgain`).
- `rebuildQueueKeepingCurrent` does not forget `preloadedIndex`. This is
  harmless: the slot invariant `Preload.Consistent` says that the standby
  element holds the file of the recorded index. So a switch always plays the
  requested track's own file (`Preload.SwitchPlaysRequestedTrack`).
- `updateDanbooruBackground` stores the searched URL as the waiting image
  before the image has decoded. If the decode fails, the next unforced update
  shows that image anyway (`Background.UndecodedImageIsShownLater`).
- `swapBgNow` keeps the old image as the waiting one. Once both images are
  present, the timer and every track switch alternate between the same two
  images, and no further search runs until a forced refresh
  (`Background.UnforcedUpdatesAlternate`).
- The search uses the rating setting as it is, or `safe` when the setting is
  empty. It does not map ratings to other names and does not normalise
  whitespace in the tag.

## Model

| member | source | states |
|---|---|---|
| `Tools.Clamp` | assets/js/player.js:61 | the result is at most `hi`, and at least `lo` when `lo <= hi`. It is `n` inside the range, `lo` below it and `hi` above it. When `hi < lo` it is `hi`, because the outer `Math.min` wins |
| `Tools.Identity` | assets/js/player.js:98 | the initial order has length n and holds index k at position k |
| `Tools.IdentityCount` | assets/js/player.js:98 | the identity order holds each index in [0, n) once and nothing else |
| `Tools.QueueOfExactlyOnce` | assets/js/player.js:98-99 | a queue of the n tracks has length n, holds exactly the indices in [0, n), and holds each of them once |
| `Tools.Swap` | assets/js/player.js:72 | the destructuring swap exchanges positions i and j, leaves every other position alone, and keeps the multiset |
| `Tools.ShuffleSteps` | assets/js/player.js:70-73 | the loop steps from position i down to 1 keep the length and the multiset of the array |
| `Tools.ShuffleArray` | assets/js/player.js:68-75 | shuffling a copy returns the loop's result for the given draws, which is a permutation of the input; the input is not changed |
| `Tools.StartupQueue` | assets/js/player.js:98-99 | the startup queue names every track exactly once, and with shuffle off it is exactly [0..n) |
| `Tracks.TrackAt` | assets/js/player.js:277 | a track is found exactly for an index inside the list, and it is the one at that index |
| `Queue.IndexOf` | assets/js/player.js:262 | the result is -1 exactly when the value is absent; otherwise it is the first position holding the value |
| `Queue.Rotate` | assets/js/player.js:266 | the rotated queue has the same length and the same multiset |
| `Queue.RotateAt` | assets/js/player.js:266 | the rotation at `pos` reads the queue cyclically: entry k is `q[(pos + k) mod L]` |
| `Queue.Rebuilt` | assets/js/player.js:256-271 | the rebuilt queue is a permutation of the fresh one; the previous track is first when it occurs in the fresh queue; otherwise the fresh queue is used as it is |
| `Queue.RebuiltIsRotation` | assets/js/player.js:262-270 | the rebuilt queue is a rotation of the fresh queue |
| `Queue.RebuiltKeepsCurrent` | assets/js/player.js:256-271 | over a queue of the n tracks, the rebuilt queue is again a queue of the n tracks, and the previously current track is at cursor 0 |
| `Queue.NextCursor` | assets/js/player.js:339-341 | on an empty queue the cursor does not move; otherwise it stays in [0, L), steps on by one, and wraps from L-1 to 0 |
| `Queue.PrevCursor` | assets/js/player.js:344-346 | on an empty queue the cursor does not move; otherwise it stays in [0, L), steps back by one, and goes from 0 to L-1 |
| `Queue.NextPrevInverse` | assets/js/player.js:339-348 | `prev` undoes `next`, and `next` undoes `prev`, on a valid cursor |
| `Queue.AdvanceSplit` | assets/js/player.js:339-341 | a + b successive `next` steps equal a steps followed by b steps |
| `Queue.AdvanceWithin` | assets/js/player.js:339-341 | k `next` steps that stay short of the end move the cursor k places on |
| `Queue.FullCycle` | assets/js/player.js:339-341 | L successive `next` calls on a queue of length L return to the starting cursor |
| `Queue.PeekNext` | assets/js/player.js:249-255 | under repeat-one the argument is returned; otherwise the result is the queue entry after the cursor (wrapping), which belongs to the queue, and there is no result on an empty queue |
| `Preload.PreloadNextIfNeeded` | assets/js/player.js:273-297 | a request for the recorded index leaves the slot as it is. Any other request first forgets the index. A request with no track then stops, keeping the standby source. A request for a track loads its file and records the index only if the wait settles. The slot invariant is kept |
| `Preload.SwitchTo` | assets/js/player.js:299-319 | an index with no track changes nothing; the fast path is taken exactly when the index is the recorded one and the standby element has a source; the fast path consumes the slot; the slot invariant is kept |
| `Preload.SwitchPlaysRequestedTrack` | assets/js/player.js:304-319 | on either path, a switch from a consistent slot makes the audible element play the requested track's file |
| `Preload.SettledPreloadIsIdempotent` | assets/js/player.js:274 | once a preload has settled, asking again for the same index changes nothing |
| `Preload.UnsettledPreloadIsRequestedAgain` | assets/js/player.js:274-296 | while a preload is still waiting, its index is not recorded. So a repeated request for the same track is not short-circuited: it loads the file again and records the index once that load settles |
| `Background.SwapBgNow` | assets/js/player.js:435-451 | no waiting image means no change; otherwise the waiting image is shown, and the old shown image (or none) becomes the waiting one |
| `Background.SwapBgNowTwice` | assets/js/player.js:445-447 | with both images present, two swaps restore the original pair |
| `Background.TagEntryFor` | assets/js/player.js:393-395 | an entry is found exactly when the file or its `encodeURI` form is a key. A present (truthy) entry for the file itself is taken first, and the `encodeURI` entry only when the file has none |
| `Background.ParseTagFromTrack` | assets/js/player.js:391-401 | the tag is never empty, and it is the map entry's tag, the tag setting, or "touhou" |
| `Background.TagPrecedence` | assets/js/player.js:391-401 | the file's own entry comes first, then the `encodeURI` entry. A present (truthy) entry for the file without a tag hides the `encodeURI` entry. Otherwise, or when the entry that was found has no tag, the setting is used, then "touhou" |
| `Background.UpdateDanbooruBackground` | assets/js/player.js:403-424 | a missing track changes nothing. An unforced update with a waiting image swaps it in and runs no search. Otherwise the search runs with the resolved tag and the rating (or "safe"). A search with no URL leaves the cache unchanged. A returned URL becomes the waiting image, and it is swapped in only if it decoded |
| `Background.CachedImageSkipsSearch` | assets/js/player.js:408-411 | an unforced update with a waiting image swaps it in and runs no search, whatever the network would answer |
| `Background.UnforcedUpdatesAlternate` | assets/js/player.js:403-451 | with both images present, two unforced updates run no search and bring back the original pair |
| `Background.UndecodedImageIsShownLater` | assets/js/player.js:408-420 | for any cache, tracks and settings: a search whose URL fails to decode leaves the shown image unchanged. The next unforced update then shows that URL without a new search |
| `SettingsStore.Save` | assets/js/player.js:213-223 | the saved record carries all seven fields, and each flag keeps its truth value |
| `SettingsStore.Restore` | assets/js/player.js:102-116 | a missing, unparsable or null record leaves the settings unchanged. A parsed record sets each flag to the truthiness of its field. Each other field becomes its stored value, or its default ('safe', '', 'cover', 0) when absent or null |
| `SettingsStore.RestoreSaved` | assets/js/player.js:102-116 | restoring the record `saveSettings` wrote gives back the same seven values |
| `SettingsStore.RestoreEmptyRecord` | assets/js/player.js:106-114 | missing fields give false flags and the defaults 'safe', '', 'cover' and 0; a missing shuffle field turns shuffle off |
| `SettingsStore.RestoreIgnoresCurrent` | assets/js/player.js:106-114 | a parsed record replaces all seven fields, whatever the settings were before |
| `Player.BootQueueAsWritten` | assets/js/player.js:97-116 | the startup queue as written is always the shuffled identity order, whatever shuffle setting was saved |
| `Player.BootQueueIgnoresSavedShuffle` | assets/js/player.js:97-116 | with shuffle saved as off, two tracks and the draws [0, 0], the startup queue as written is [1, 0] and not [0, 1] |
| `Player.BootQueue` | assets/js/player.js:97-116 | with the settings restored first, the startup queue names every track once, is [0..n) when the restored shuffle is off, and is the shuffled order when it is on |
| `Player.PlayerState.AfterSwitch` | assets/js/player.js:299-331 | an index with no track changes nothing. The slot invariant is kept, and the audible source becomes the requested track's file. The background gets an unforced update when it is enabled and is left alone otherwise. The track after `index` is preloaded; once that preload settles, switching to it takes the fast path |
| `Player.PlayerState.CurrentSwitchPreloadsNext` | assets/js/player.js:299-343 | for tracks with non-empty files: after the current track is played and its preload settles, switching to the track `getNextIndex` names takes the fast path. With repeat-one off, that track is the one `next()` moves to |
| `Player.PlayerState.CurrentTrack` | assets/js/player.js:245-248 | a track is found exactly when the cursor is inside the queue and its entry names a track, and that track is the one under the cursor |
| `Player.PlayerState.constructor` | assets/js/player.js:85-116 | startup in the corrected order (see "## Findings"): the settings are the restored record, and the queue is `BootQueue`. The cursor is 0, and the slot and background are empty |
| `Player.PlayerState.Start` | assets/js/player.js:134-137 | the current track plays, and the track after it is asked for again |
| `Player.PlayerState.PreloadNextIfNeeded` | assets/js/player.js:273-297 | the slot becomes `Preload.PreloadNextIfNeeded` of the old slot, and the invariant is kept |
| `Player.PlayerState.SwitchTo` | assets/js/player.js:299-332 | the playback state becomes `AfterSwitch` of the old one; the result says whether the fast path was taken; the audible source is the requested track's file |
| `Player.PlayerState.PlayCurrent` | assets/js/player.js:334-337 | switches to the track under the cursor, which then plays |
| `Player.PlayerState.Next` | assets/js/player.js:339-343 | the cursor becomes `NextCursor`; an empty queue changes nothing; without repeat-one the new current track is the one `getNextIndex` showed before |
| `Player.PlayerState.Prev` | assets/js/player.js:344-348 | the cursor becomes `PrevCursor`; an empty queue changes nothing; otherwise the new current track plays |
| `Player.PlayerState.OnEnded` | assets/js/player.js:162-169 | under repeat-one the cursor and sources stay; otherwise the handler behaves as `next()`, wrapping at the end of the queue |
| `Player.PlayerState.RebuildQueueKeepingCurrent` | assets/js/player.js:256-271 | the queue becomes `Rebuilt` of a fresh startup queue, the cursor is 0, and the current track is unchanged |
| `Player.PlayerState.SetShuffle` | assets/js/player.js:176-183 | a changed setting rebuilds the queue around the current track and saves the settings; the same setting changes nothing; the current track is kept |
| `Player.PlayerState.SaveSettings` | assets/js/player.js:213-223 | the stored entry becomes the record of the settings, and restoring it gives the settings back |
| `Player.PlayerState.SwapBgNow` | assets/js/player.js:435-451 | the two URL fields become `Background.SwapBgNow` of the old pair |
| `Player.PlayerState.UpdateDanbooruBackground` | assets/js/player.js:403-424 | the URL fields and the search that ran are those of `Background.UpdateDanbooruBackground` |
| `Player.PlayerState.RefreshBackground` | assets/js/player.js:197 | a forced update for the current track |
| `Player.PlayerState.OnBgTimerTick` | assets/js/player.js:369-371 | an unforced update for the current track while the background is enabled; otherwise no change |

## Findings

| source | as written | input that shows it | evidently intended | confidence | as-written member | corrected member |
|---|---|---|---|---|---|---|
| assets/js/player.js:97-116 | `boot` builds and shuffles the queue from `STATE.shuffle` before it restores the saved settings, so the startup order always follows the initial value `true` | saved settings with shuffle off, two tracks, draws [0, 0]: the startup queue is [1, 0], while the restored setting and its checkbox say shuffle is off | restore the settings first, so that a saved shuffle-off starts in track order | high; not executed | `Player.BootQueueAsWritten` (counterexample `Player.BootQueueIgnoresSavedShuffle`) | `Player.BootQueue` (used by `Player.PlayerState.constructor`) |

## Left out

- assets/js/viz.js (canvas drawing) and assets/js/ui.js (panel wiring) are not part of this model.
- Loading the track list and the tag map (`loadJSON`, `fetch`) is not modelled. Both are constructor inputs. A failed tag-map load gives the empty map. A failed track-list load stops `boot`, and that case is not modelled.
- The audio elements' `play`, `pause`, `load`, `currentTime`, `volume` and `muted` are not modelled. Only their `src` is modelled. A failed `play()` is caught and changes no modelled state.
- `fetchDanbooruImageUrl` is not modelled. This includes the request URL, the `-comic -4koma` filter and the choice among `file_url`, `large_file_url` and `preview_file_url`. The model takes its result as an input URL.
- `preloadImage` is not modelled. Its outcome is the `imageDecoded` input.
- Interleavings of the asynchronous continuations are not modelled. Each preload, search and decode completes, or never completes, before the next command.
- Timers are not modelled. `startBgAutoTimer` and `clearInterval` are left out; only one timer tick is modelled (`OnBgTimerTick`).
- UI code is not modelled: `fmtTime`, `updateProgress`, `onSeek`, `togglePlay`, the title, `applyBgFit` and the download button.
- The settings handlers other than shuffle are not modelled: repeat-one, background on/off, rating, tag (with `trim`), fit and interval. Each assigns one field and calls `saveSettings`. The fit handler also calls `applyBgFit` (styling). The interval handler also converts its input with `Number(value || 0)` and restarts the rotation timer with `startBgAutoTimer`. Both extra calls are left out with the UI and the timers.
- `Math.random()` is replaced by a sequence of draws. The model does not state that every permutation is equally likely.
- JavaScript numbers are modelled as `real` in `clamp` (NaN is not modelled) and as whole seconds for `bgInterval`. `Number()` of non-numeric stored text, and a NaN interval, are not modelled. Such an interval is saved as `null` and restored as 0.
- Stored settings are modelled only with values of the expected type: booleans as any JSON value, strings as strings, and the interval as a number. A non-string value in a string field is not modelled.
- `encodeURI` is an uninterpreted function parameter.
- Background.TagEntryFor: tag-map values are taken to be objects, so a key that is present is a truthy entry. A falsy value (`null`, `false`, `0`, `""`) under the file's own key does not hide the `encodeURI` entry in the page, because `||` skips it. The model has no falsy values and would stop at that key. `encodeURI` is also taken not to throw. In the page, a file name with a lone surrogate makes it throw a `URIError` inside `parseTagFromTrack`. The `try` then swallows the error before the cache check, so `updateDanbooruBackground` changes nothing, not even the cached swap. `Background.ParseTagFromTrack`, `Background.CachedImageSkipsSearch` and `Background.UpdateDanbooruBackground` inherit this assumption.
- Track files are taken to be non-empty. The model reads an empty `audioPre.src` as "no source". For a track whose `file` is `""`, the page assigns `audioPre.src = ""`. A browser then reads `src` back as the page's own URL, which is truthy, so `switchTo` would take the fast path and play that URL. In the model, such a track records an empty source, so it never takes the fast path and its recorded index is never consumed. `Player.PlayerState.CurrentSwitchPreloadsNext` requires non-empty files for this reason.
- Player.PlayerState.OnEnded: the repeat-one branch's `currentTime = 0` and `play()` are not modelled, because the position and the playing status are not modelled, so that branch changes nothing here.
