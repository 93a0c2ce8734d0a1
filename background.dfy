/** The background-image cache: `parseTagFromTrack`, `swapBgNow` and the
    cache decision of `updateDanbooruBackground`. The image search and the
    off-screen decode are inputs: the URL the search returned (None on any
    failure) and whether the decode succeeded. */
module Background {
  import opened Wrappers
  import opened Tracks

  /** `STATE.bgCurrentUrl` (shown) and `STATE.bgNextUrl` (waiting). */
  datatype BgCache = BgCache(current: Option<string>, next: Option<string>)

  /** The cache at page load. */
  const Empty: BgCache := BgCache(None, None)

  /** JavaScript truthiness of a URL slot: null and "" are both false. */
  predicate Present(u: Option<string>)
  {
    u.Some? && u.value != ""
  }

  /** `swapBgNow`: with no waiting image nothing happens; otherwise the waiting
      image is shown and the one shown before becomes the waiting one (it is
      kept, not cleared). */
  function SwapBgNow(c: BgCache): (r: BgCache)
    ensures !Present(c.next) ==> r == c
    ensures Present(c.next) ==> r.current == c.next && Present(r.current)
    ensures Present(c.next) ==> r.next == (if Present(c.current) then c.current else None)
  {
    if !Present(c.next) then c
    else BgCache(c.next, if Present(c.current) then c.current else None)
  }

  /** Two swaps with both images present give back the original pair. */
  lemma SwapBgNowTwice(c: BgCache)
    requires Present(c.current) && Present(c.next)
    ensures SwapBgNow(SwapBgNow(c)) == c
  {
  }

  /** The entry of the tag map for a file: `tagsMap[file] || tagsMap[encodeURI(file)]`.
      A present (truthy) entry for the file itself wins even when it carries
      no tag. Map values are taken to be objects, so every key present here
      is a truthy entry; `encodeURI` is taken not to throw. */
  function TagEntryFor(file: string, tagsMap: map<string, TagEntry>, encodeUri: string -> string): (r: Option<TagEntry>)
    ensures r.Some? <==> file in tagsMap || encodeUri(file) in tagsMap
    ensures r.Some? ==> r.value in tagsMap.Values
    ensures file in tagsMap ==> r == Some(tagsMap[file])
    ensures file !in tagsMap && encodeUri(file) in tagsMap ==> r == Some(tagsMap[encodeUri(file)])
  {
    if file in tagsMap then Some(tagsMap[file])
    else if encodeUri(file) in tagsMap then Some(tagsMap[encodeUri(file)])
    else None
  }

  /** `parseTagFromTrack`: the image search tag for a track. The tag of the
      track's map entry comes first, then the user's tag setting, then the
      fixed "touhou"; the result is never empty. */
  function ParseTagFromTrack(track: Track, tagsMap: map<string, TagEntry>, encodeUri: string -> string,
                             bgTag: string): (r: string)
    ensures r != ""
    ensures r == "touhou" || r == bgTag || TagEntryFor(track.file, tagsMap, encodeUri) == Some(TagEntry(r))
  {
    var entry := TagEntryFor(track.file, tagsMap, encodeUri);
    if entry.Some? && entry.value.bgTag != "" then entry.value.bgTag
    else if bgTag != "" then bgTag
    else "touhou"
  }

  /** The precedence of `parseTagFromTrack`, case by case. */
  lemma TagPrecedence(track: Track, tagsMap: map<string, TagEntry>, encodeUri: string -> string, bgTag: string)
    ensures var f := track.file;
            var r := ParseTagFromTrack(track, tagsMap, encodeUri, bgTag);
            && (f in tagsMap && tagsMap[f].bgTag != "" ==> r == tagsMap[f].bgTag)
            && (f !in tagsMap && encodeUri(f) in tagsMap && tagsMap[encodeUri(f)].bgTag != "" ==>
                  r == tagsMap[encodeUri(f)].bgTag)
            && (f in tagsMap && tagsMap[f].bgTag == "" ==> r == (if bgTag != "" then bgTag else "touhou"))
            && (f !in tagsMap && encodeUri(f) in tagsMap && tagsMap[encodeUri(f)].bgTag == "" ==>
                  r == (if bgTag != "" then bgTag else "touhou"))
            && (f !in tagsMap && encodeUri(f) !in tagsMap ==> r == (if bgTag != "" then bgTag else "touhou"))
  {
  }

  /** The search `fetchDanbooruImageUrl` is asked to run: the tag and the
      rating filter. */
  datatype BgQuery = BgQuery(tag: string, rating: string)

  /** The cache after `updateDanbooruBackground`, and the search it ran, if any. */
  datatype BgUpdate = BgUpdate(cache: BgCache, query: Option<BgQuery>)

  /** `updateDanbooruBackground(track, force)`. A missing track throws inside
      the `try` and changes nothing. Without `force`, a waiting image is shown
      at once and no search runs. Otherwise the search runs; its URL, when it
      returns one, is stored as the waiting image and shown if it decodes. */
  function UpdateDanbooruBackground(c: BgCache, track: Option<Track>, tagsMap: map<string, TagEntry>,
                                    encodeUri: string -> string, bgTag: string, bgRating: string,
                                    force: bool, imageUrl: Option<string>, decoded: bool): (r: BgUpdate)
    ensures track.None? ==> r == BgUpdate(c, None)
    ensures r.query.Some? ==>
              && track.Some?
              && r.query.value.tag == ParseTagFromTrack(track.value, tagsMap, encodeUri, bgTag)
              && r.query.value.rating == (if bgRating != "" then bgRating else "safe")
    ensures r.query.None? ==> r.cache == c || r.cache == SwapBgNow(c)
    ensures r.cache.current != c.current ==> r.cache.current == c.next || (r.cache.current == imageUrl && decoded)
    ensures !Present(imageUrl) ==> r.cache == c || r.cache == SwapBgNow(c)
    ensures track.Some? && !force && Present(c.next) ==> r == BgUpdate(SwapBgNow(c), None)
    ensures track.Some? && (force || !Present(c.next)) ==> r.query.Some?
    ensures track.Some? && (force || !Present(c.next)) && !Present(imageUrl) ==> r.cache == c
    ensures track.Some? && (force || !Present(c.next)) && Present(imageUrl) ==>
              r.cache == (if decoded then SwapBgNow(c.(next := imageUrl)) else c.(next := imageUrl))
  {
    match track
    case None => BgUpdate(c, None)
    case Some(t) =>
      var query := BgQuery(ParseTagFromTrack(t, tagsMap, encodeUri, bgTag), if bgRating != "" then bgRating else "safe");
      if !force && Present(c.next) then BgUpdate(SwapBgNow(c), None)
      else if !Present(imageUrl) then BgUpdate(c, Some(query))
      else
        var stored := c.(next := imageUrl);
        BgUpdate(if decoded then SwapBgNow(stored) else stored, Some(query))
  }

  /** A waiting image is shown without any search, whatever the network would
      have answered. */
  lemma CachedImageSkipsSearch(c: BgCache, t: Track, tagsMap: map<string, TagEntry>, encodeUri: string -> string,
                               bgTag: string, bgRating: string, imageUrl: Option<string>, decoded: bool)
    requires Present(c.next)
    ensures UpdateDanbooruBackground(c, Some(t), tagsMap, encodeUri, bgTag, bgRating, false, imageUrl, decoded)
            == BgUpdate(SwapBgNow(c), None)
  {
  }

  /** Once both images are present, unforced updates (the timer and every
      track switch) alternate between the same two images and never search
      again. */
  lemma UnforcedUpdatesAlternate(c: BgCache, t1: Track, t2: Track, tagsMap: map<string, TagEntry>,
                                 encodeUri: string -> string, bgTag: string, bgRating: string,
                                 u1: Option<string>, d1: bool, u2: Option<string>, d2: bool)
    requires Present(c.current) && Present(c.next)
    ensures var first := UpdateDanbooruBackground(c, Some(t1), tagsMap, encodeUri, bgTag, bgRating, false, u1, d1);
            var second := UpdateDanbooruBackground(first.cache, Some(t2), tagsMap, encodeUri, bgTag, bgRating, false, u2, d2);
            first.query.None? && second.query.None? && first.cache.current == c.next && second.cache == c
  {
    CachedImageSkipsSearch(c, t1, tagsMap, encodeUri, bgTag, bgRating, u1, d1);
    var first := SwapBgNow(c);
    CachedImageSkipsSearch(first, t2, tagsMap, encodeUri, bgTag, bgRating, u2, d2);
    SwapBgNowTwice(c);
  }

  /** A searched URL whose decode failed is still stored as the waiting
      image, and the next unforced update shows it without a search: the
      decode check guards only the swap made right after the search. */
  lemma UndecodedImageIsShownLater(c: BgCache, t1: Track, t2: Track, tagsMap: map<string, TagEntry>,
                                   encodeUri: string -> string, bgTag: string, bgRating: string, force: bool,
                                   u: Option<string>, u2: Option<string>, d2: bool)
    requires force || !Present(c.next)
    requires Present(u)
    ensures var first := UpdateDanbooruBackground(c, Some(t1), tagsMap, encodeUri, bgTag, bgRating, force, u, false);
            var second := UpdateDanbooruBackground(first.cache, Some(t2), tagsMap, encodeUri, bgTag, bgRating, false, u2, d2);
            && first.query.Some? && first.cache.current == c.current
            && second.query.None? && second.cache.current == u
  {
    var first := UpdateDanbooruBackground(c, Some(t1), tagsMap, encodeUri, bgTag, bgRating, force, u, false);
    assert first.cache == c.(next := u);
    CachedImageSkipsSearch(first.cache, t2, tagsMap, encodeUri, bgTag, bgRating, u2, d2);
  }
}
