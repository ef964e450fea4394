/** The search side of the tool: the candidate filter that decides whether a
    search hit matches a query, the two paging searchers (SoundCloud and
    YouTube) that keep the hits it accepts up to a cap, `query_media`, which
    runs the platforms asked for, and `query_artist`, which stamps the artist
    on every hit.

    The web APIs are given as the answers they would return: SoundCloud's as
    the sequence of responses to the requests at offsets 0, 50, 100, ...,
    YouTube's as the sequence of result pages along the page-token chain. */
module QuerySources {
  import opened Json
  import opened TextMatch

  /** The text services the filter consults and this model does not look
      into: `unidecode`, `str.lower`, and the sentence encoder followed by
      cosine similarity, as one score of two texts. */
  datatype Oracle = Oracle(
    unidecode: string -> string,
    lower: string -> string,
    similarity: (string, string) -> real)

  /** A hit with no literal match is kept when its score reaches this. */
  const SimilarityThreshold: real := 0.3

  const SoundcloudPlatform := "soundcloud"
  const YoutubePlatform := "youtube"

  /** `[i.lower() for i in subs]` */
  function Lowered(o: Oracle, subs: seq<string>): (r: seq<string>)
    ensures |r| == |subs|
    ensures forall i :: 0 <= i < |subs| ==> r[i] == o.lower(subs[i])
  {
    seq(|subs|, i requires 0 <= i < |subs| => o.lower(subs[i]))
  }

  /** Some lower-cased banned substring occurs in the transliterated,
      lower-cased title (the channel is never looked at). */
  predicate Banned(o: Oracle, banned: seq<string>, title: string) {
    AnyIn(Lowered(o, banned), o.lower(o.unidecode(title)))
  }

  /** A title is banned iff the lower-cased form of some entry of the ban
      list occurs in the transliterated, lower-cased title. */
  lemma BannedIffOccurs(o: Oracle, banned: seq<string>, title: string)
    ensures Banned(o, banned, title) <==>
      exists i :: 0 <= i < |banned| && Contains(o.lower(o.unidecode(title)), o.lower(banned[i]))
  {
    var text := o.lower(o.unidecode(title));
    if Banned(o, banned, title) {
      var i :| 0 <= i < |banned| && Contains(text, Lowered(o, banned)[i]);
      assert Contains(text, o.lower(banned[i]));
    } else {
      forall i | 0 <= i < |banned| ensures !Contains(text, o.lower(banned[i])) {
        assert Lowered(o, banned)[i] == o.lower(banned[i]);
      }
    }
  }

  /** `query_filter`: duration strictly inside the bounds, no banned
      substring in the title, then a literal case-insensitive match of the
      query in "title channel" or else a similarity of at least 0.3. */
  function QueryFilter(o: Oracle, query: string, title: string, channel: string,
                       durationSeconds: real, minSeconds: real, maxSeconds: real,
                       banned: seq<string>): (accepted: bool)
    ensures accepted ==> minSeconds < durationSeconds < maxSeconds
    ensures accepted ==> forall i :: 0 <= i < |banned| ==>
                           !Contains(o.lower(o.unidecode(title)), o.lower(banned[i]))
  {
    if !(minSeconds < durationSeconds && durationSeconds < maxSeconds) || Banned(o, banned, title) then
      false
    else
      var titleChannel := title + " " + channel;
      if !Contains(o.lower(titleChannel), o.lower(query)) then
        var score := o.similarity(o.lower(query), o.lower(o.unidecode(titleChannel)));
        !(score < SimilarityThreshold)
      else
        true
  }

  /** A literal match accepts a hit that passed the cheap checks, and the
      similarity oracle is not consulted: any other oracle gives the same. */
  lemma LiteralMatchAccepts(o: Oracle, query: string, title: string, channel: string,
                            durationSeconds: real, minSeconds: real, maxSeconds: real,
                            banned: seq<string>, otherSimilarity: (string, string) -> real)
    requires minSeconds < durationSeconds < maxSeconds && !Banned(o, banned, title)
    requires Contains(o.lower(title + " " + channel), o.lower(query))
    ensures QueryFilter(o, query, title, channel, durationSeconds, minSeconds, maxSeconds, banned)
    ensures QueryFilter(o.(similarity := otherSimilarity), query, title, channel,
                        durationSeconds, minSeconds, maxSeconds, banned)
  {
  }

  /** Without a literal match the similarity of the lower-cased query and
      the transliterated, lower-cased "title channel" decides. */
  lemma SimilarityDecides(o: Oracle, query: string, title: string, channel: string,
                          durationSeconds: real, minSeconds: real, maxSeconds: real,
                          banned: seq<string>)
    requires minSeconds < durationSeconds < maxSeconds && !Banned(o, banned, title)
    requires !Contains(o.lower(title + " " + channel), o.lower(query))
    ensures QueryFilter(o, query, title, channel, durationSeconds, minSeconds, maxSeconds, banned)
        <==> o.similarity(o.lower(query), o.lower(o.unidecode(title + " " + channel))) >= SimilarityThreshold
  {
  }

  /** Banning more substrings never admits a hit that was rejected. */
  lemma {:induction false} MoreBansRejectMore(o: Oracle, query: string, title: string, channel: string,
                                              durationSeconds: real, minSeconds: real, maxSeconds: real,
                                              banned: seq<string>, extra: seq<string>)
    requires !QueryFilter(o, query, title, channel, durationSeconds, minSeconds, maxSeconds, banned)
    ensures !QueryFilter(o, query, title, channel, durationSeconds, minSeconds, maxSeconds, banned + extra)
  {
    var text := o.lower(o.unidecode(title));
    if Banned(o, banned, title) {
      var i :| 0 <= i < |banned| && Contains(text, Lowered(o, banned)[i]);
      assert (banned + extra)[i] == banned[i];
      assert Contains(text, Lowered(o, banned + extra)[i]);
    }
  }

  /** The filter settings a search passes to `query_filter` for every hit. */
  datatype Criteria = Criteria(query: string, minSeconds: real, maxSeconds: real, banned: seq<string>)

  /** A search hit as the searchers return it; `artist` is absent until
      `query_artist` stamps it. */
  datatype Track = Track(title: string, link: string, platform: string, artist: Option<string>)
  {
    /** The dict the rest of the tool sees. */
    function AsDict(): (d: Dict)
      ensures d.Keys == if artist.Some? then {"title", "link", "platform", "artist"}
                        else {"title", "link", "platform"}
      ensures d["title"] == Str(title) && d["link"] == Str(link) && d["platform"] == Str(platform)
      ensures artist.Some? ==> d["artist"] == Str(artist.value)
    {
      var base := map["title" := Str(title), "link" := Str(link), "platform" := Str(platform)];
      if artist.Some? then base["artist" := Str(artist.value)] else base
    }
  }

  /** Reads a hit back from a dict: `title`, `link` and `platform` must hold
      strings, and `artist` is read when it holds one. */
  function TrackOf(d: Dict): Option<Track> {
    if "title" in d && d["title"].Str? && "link" in d && d["link"].Str? &&
       "platform" in d && d["platform"].Str?
    then
      Some(Track(d["title"].s, d["link"].s, d["platform"].s,
                 if "artist" in d && d["artist"].Str? then Some(d["artist"].s) else None))
    else
      None
  }

  /** A hit's dict holds the whole hit: reading it back gives the hit. */
  lemma AsDictRoundTrip(t: Track)
    ensures TrackOf(t.AsDict()) == Some(t)
  {
  }

  /** The outcome of a search: the tracks, or the ValueError that
      `query_youtube` raises without an API key. */
  datatype Answer = Tracks(tracks: seq<Track>) | MissingYoutubeKey

  /** max(n, 0): the most tracks a cap of `n` lets through. */
  function Cap(n: int): nat {
    if n < 0 then 0 else n
  }

  /** The first `n` elements (none for a non-positive `n`). */
  function Take<T>(s: seq<T>, n: int): (r: seq<T>)
    ensures |r| == if |s| < Cap(n) then |s| else Cap(n)
    ensures r == s[..|r|]
  {
    if n <= 0 then [] else if n < |s| then s[..n] else s
  }

  /** Python's `s[:n]`, where a negative `n` counts from the end. */
  function PySlice<T>(s: seq<T>, n: int): seq<T> {
    if n >= 0 then (if n < |s| then s[..n] else s)
    else if |s| + n > 0 then s[..|s| + n]
    else []
  }

  /** The searchers slice only lists for which Python's slice is Take. */
  lemma PySliceIsTake<T>(s: seq<T>, n: int)
    requires n > 0 || |s| <= 1
    ensures PySlice(s, n) == Take(s, n)
  {
  }

  /** Once at least `n` elements are there, more do not change the first `n`. */
  lemma TakeOfLonger<T>(s: seq<T>, rest: seq<T>, n: int)
    requires |s| >= n
    ensures Take(s + rest, n) == Take(s, n)
  {
    if n > 0 {
      assert (s + rest)[..n] == s[..n];
    }
  }

  /** The hits of `items` that `accepts` keeps, in order, as tracks. */
  function KeepAccepted<X>(items: seq<X>, accepts: X -> bool, track: X -> Track): (kept: seq<Track>)
    ensures |kept| <= |items|
    ensures forall t :: t in kept ==> exists i :: 0 <= i < |items| && accepts(items[i]) && t == track(items[i])
  {
    if items == [] then []
    else
      var rest := KeepAccepted(items[1..], accepts, track);
      assert forall i :: 1 <= i < |items| ==> items[i] == items[1..][i - 1];
      (if accepts(items[0]) then [track(items[0])] else []) + rest
  }

  /** Keeping distributes over concatenation: pages can be kept one by one. */
  lemma {:induction false} KeepAcceptedAppend<X>(a: seq<X>, b: seq<X>, accepts: X -> bool, track: X -> Track)
    ensures KeepAccepted(a + b, accepts, track) == KeepAccepted(a, accepts, track) + KeepAccepted(b, accepts, track)
  {
    if a == [] {
      assert a + b == b;
    } else {
      var head := if accepts(a[0]) then [track(a[0])] else [];
      assert (a + b)[0] == a[0] && (a + b)[1..] == a[1..] + b;
      assert KeepAccepted(a + b, accepts, track) == head + KeepAccepted(a[1..] + b, accepts, track);
      KeepAcceptedAppend(a[1..], b, accepts, track);
      assert KeepAccepted(a, accepts, track) == head + KeepAccepted(a[1..], accepts, track);
    }
  }

  // ---------------------------------------------------------------- SoundCloud

  /** Results per SoundCloud request, and the offset step between requests. */
  const PageLimit: nat := 50

  /** A SoundCloud search hit. An empty `title`, `permalink` or
      `publisherArtist` stands for a missing or empty field; `durationMs`
      is the duration in milliseconds. */
  datatype ScItem = ScItem(title: string, durationMs: int, publisherArtist: string,
                           username: Option<string>, permalink: string)

  /** The HTTP status of a search request and the hits in its JSON body. */
  datatype ScResponse = ScResponse(status: int, collection: seq<ScItem>)

  /** The answer to request number `page` (offset `page * PageLimit`); the
      service runs out of results after the responses given. */
  function ScResponseAt(api: seq<ScResponse>, page: nat): ScResponse {
    if page < |api| then api[page] else ScResponse(200, [])
  }

  /** `publisher_metadata.get("artist") or user.get("username")` */
  function ScArtist(item: ScItem): (artist: Option<string>)
    ensures item.publisherArtist != "" ==> artist == Some(item.publisherArtist)
    ensures artist.Some? ==> artist.value == item.publisherArtist || artist == item.username
    ensures artist.None? <==> item.publisherArtist == "" && item.username.None?
  {
    if item.publisherArtist != "" then Some(item.publisherArtist) else item.username
  }

  /** `f"{value}"` of an optional string: None prints as "None". */
  function Formatted(value: Option<string>): string {
    match value
    case None => "None"
    case Some(s) => s
  }

  /** The f-string cannot tell a missing artist from one named "None";
      any other two artists give different texts. */
  lemma FormattedCollides(a: Option<string>, b: Option<string>)
    ensures Formatted(a) == Formatted(b) <==>
      a == b || (a == None && b == Some("None")) || (a == Some("None") && b == None)
  {
  }

  /** The searcher looks only at hits with a title and a permalink. */
  predicate ScListable(item: ScItem) {
    item.title != "" && item.permalink != ""
  }

  /** A hit with a title and a permalink has a duration: `query_filter`
      would raise on the None that a missing duration becomes. */
  ghost predicate DurationsPresent(api: seq<ScResponse>) {
    forall page, i :: 0 <= page < |api| && 0 <= i < |api[page].collection| && ScListable(api[page].collection[i]) ==>
      api[page].collection[i].durationMs != 0
  }

  predicate ScAccepts(o: Oracle, c: Criteria, item: ScItem) {
    ScListable(item) &&
    QueryFilter(o, c.query, item.title, Formatted(ScArtist(item)), item.durationMs as real / 1000.0,
                c.minSeconds, c.maxSeconds, c.banned)
  }

  function ScTrack(item: ScItem): Track {
    Track(item.title, item.permalink, SoundcloudPlatform, None)
  }

  function ScAcceptor(o: Oracle, c: Criteria): ScItem -> bool {
    item => ScAccepts(o, c, item)
  }

  function ScKept(o: Oracle, c: Criteria, items: seq<ScItem>): seq<Track> {
    KeepAccepted(items, ScAcceptor(o, c), ScTrack)
  }

  /** Every kept SoundCloud track is a listable hit that the filter accepted. */
  lemma ScKeptTracks(o: Oracle, c: Criteria, items: seq<ScItem>)
    ensures forall t :: t in ScKept(o, c, items) ==>
      t.platform == SoundcloudPlatform && t.title != "" && t.link != "" && t.artist == None &&
      !Banned(o, c.banned, t.title)
  {
    forall t | t in ScKept(o, c, items)
      ensures t.platform == SoundcloudPlatform && t.title != "" && t.link != "" && t.artist == None &&
              !Banned(o, c.banned, t.title)
    {
      var i :| 0 <= i < |items| && ScAccepts(o, c, items[i]) && t == ScTrack(items[i]);
    }
  }

  /** The hits of the first `pages` responses, in order. */
  function ScCollected(api: seq<ScResponse>, pages: nat): seq<ScItem> {
    if pages == 0 then [] else ScCollected(api, pages - 1) + ScResponseAt(api, pages - 1).collection
  }

  /** The loop requests page `page` (still under the cap), gets status 200
      and a non-empty collection, and so goes on to the next offset. */
  ghost predicate ScContinues(o: Oracle, c: Criteria, maxResults: int, api: seq<ScResponse>, page: nat) {
    && |ScKept(o, c, ScCollected(api, page))| < maxResults
    && ScResponseAt(api, page).status == 200
    && ScResponseAt(api, page).collection != []
  }

  /** What `query_soundcloud` returns: the kept hits of the pages read
      before the first stop (cap reached, non-200 status or empty
      collection), cut to `maxResults`. */
  ghost predicate SoundcloudAnswer(o: Oracle, c: Criteria, maxResults: int, api: seq<ScResponse>, tracks: seq<Track>) {
    exists pages: nat ::
      && (forall p :: 0 <= p < pages ==> ScContinues(o, c, maxResults, api, p))
      && !ScContinues(o, c, maxResults, api, pages)
      && tracks == Take(ScKept(o, c, ScCollected(api, pages)), maxResults)
  }

  /** The SoundCloud answer, or none at all without a client id. */
  ghost predicate SoundcloudPart(o: Oracle, c: Criteria, maxResults: int, clientId: string,
                                 api: seq<ScResponse>, tracks: seq<Track>) {
    if clientId == "" then tracks == [] else SoundcloudAnswer(o, c, maxResults, api, tracks)
  }

  /** `query_soundcloud`, with the client-id scraping and the HTTP calls
      replaced by their results (`clientId` empty when none was found). */
  method QuerySoundcloud(o: Oracle, c: Criteria, maxResults: int, clientId: string, api: seq<ScResponse>)
    returns (tracks: seq<Track>)
    requires DurationsPresent(api)
    ensures SoundcloudPart(o, c, maxResults, clientId, api, tracks)
    ensures |tracks| <= Cap(maxResults)
    ensures forall t :: t in tracks ==>
      t.platform == SoundcloudPlatform && t.title != "" && t.link != "" && t.artist == None &&
      !Banned(o, c.banned, t.title)
  {
    if clientId == "" {
      return [];
    }
    var allTracks: seq<Track> := [];
    var offset := 0;
    ghost var page: nat := 0;
    while |allTracks| < maxResults
      invariant page <= |api| && offset == page * PageLimit
      invariant forall p :: 0 <= p < page ==> ScContinues(o, c, maxResults, api, p)
      invariant allTracks == ScKept(o, c, ScCollected(api, page))
      invariant maxResults > 0 || page == 0
      decreases |api| - page
    {
      var response := ScResponseAt(api, offset / PageLimit);
      if response.status != 200 {
        break;
      }
      var collection := response.collection;
      if collection == [] {
        break;
      }
      allTracks := KeepListed(o, c, ScCollected(api, page), allTracks, collection);
      offset := offset + PageLimit;
      page := page + 1;
    }
    ScStopped(o, c, maxResults, api, page);
    PySliceIsTake(allTracks, maxResults);
    tracks := PySlice(allTracks, maxResults);
  }

  /** The inner loop of `query_soundcloud`: appends to `kept`, the tracks
      kept from the hits `before`, those of `collection` that have a title
      and a permalink and pass the filter. */
  method KeepListed(o: Oracle, c: Criteria, ghost before: seq<ScItem>, kept: seq<Track>, collection: seq<ScItem>)
    returns (allTracks: seq<Track>)
    requires kept == ScKept(o, c, before)
    ensures allTracks == ScKept(o, c, before + collection)
  {
    allTracks := kept;
    assert before + collection[..0] == before;
    for j := 0 to |collection|
      invariant allTracks == ScKept(o, c, before + collection[..j])
    {
      var item := collection[j];
      KeepAcceptedAppend(before + collection[..j], [item], ScAcceptor(o, c), ScTrack);
      assert before + collection[..j + 1] == before + collection[..j] + [item];
      if item.title != "" && item.permalink != "" {
        if QueryFilter(o, c.query, item.title, Formatted(ScArtist(item)), item.durationMs as real / 1000.0,
                       c.minSeconds, c.maxSeconds, c.banned) {
          allTracks := allTracks + [ScTrack(item)];
        }
      }
    }
    assert collection[..|collection|] == collection;
  }

  /** Stopping at page `page` answers with that page's kept hits, cut. */
  lemma ScStopped(o: Oracle, c: Criteria, maxResults: int, api: seq<ScResponse>, page: nat)
    requires forall p :: 0 <= p < page ==> ScContinues(o, c, maxResults, api, p)
    requires !ScContinues(o, c, maxResults, api, page)
    ensures SoundcloudAnswer(o, c, maxResults, api, Take(ScKept(o, c, ScCollected(api, page)), maxResults))
    ensures forall t :: t in Take(ScKept(o, c, ScCollected(api, page)), maxResults) ==>
      t.platform == SoundcloudPlatform && t.title != "" && t.link != "" && t.artist == None &&
      !Banned(o, c.banned, t.title)
  {
    ScKeptTracks(o, c, ScCollected(api, page));
  }

  // ------------------------------------------------------------------- YouTube

  /** A video as the videos endpoint describes it; `durationSeconds` is the
      parsed ISO 8601 duration. */
  datatype Video = Video(id: string, title: string, channel: string, durationSeconds: real)

  /** The details of one page of search results, and whether the search
      response carried a `nextPageToken`. */
  datatype YtPage = YtPage(videos: seq<Video>, hasNextPage: bool)

  const WatchUrl := "https://www.youtube.com/watch?v="

  /** Page `page` of the token chain; past the pages given there is none. */
  function YtPageAt(pages: seq<YtPage>, page: nat): YtPage {
    if page < |pages| then pages[page] else YtPage([], false)
  }

  predicate YtAccepts(o: Oracle, c: Criteria, v: Video) {
    QueryFilter(o, c.query, v.title, v.channel, v.durationSeconds, c.minSeconds, c.maxSeconds, c.banned)
  }

  function YtTrack(v: Video): Track {
    Track(v.title, WatchUrl + v.id, YoutubePlatform, None)
  }

  function YtAcceptor(o: Oracle, c: Criteria): Video -> bool {
    v => YtAccepts(o, c, v)
  }

  function YtKept(o: Oracle, c: Criteria, videos: seq<Video>): seq<Track> {
    KeepAccepted(videos, YtAcceptor(o, c), YtTrack)
  }

  /** Every kept YouTube track is a watch link of a video the filter accepted. */
  lemma YtKeptTracks(o: Oracle, c: Criteria, videos: seq<Video>)
    ensures forall t :: t in YtKept(o, c, videos) ==>
      t.platform == YoutubePlatform && t.link[..|WatchUrl|] == WatchUrl && t.artist == None &&
      !Banned(o, c.banned, t.title)
  {
    forall t | t in YtKept(o, c, videos)
      ensures t.platform == YoutubePlatform && t.link[..|WatchUrl|] == WatchUrl && t.artist == None &&
              !Banned(o, c.banned, t.title)
    {
      var i :| 0 <= i < |videos| && YtAccepts(o, c, videos[i]) && t == YtTrack(videos[i]);
    }
  }

  /** The videos of the first `pages` pages, in order. */
  function YtCollected(pages: seq<YtPage>, count: nat): seq<Video> {
    if count == 0 then [] else YtCollected(pages, count - 1) + YtPageAt(pages, count - 1).videos
  }

  /** After page `page` there is a next page token and still fewer than
      `maxResults` tracks, so the loop requests the next page. */
  ghost predicate YtContinues(o: Oracle, c: Criteria, maxResults: int, pages: seq<YtPage>, page: nat) {
    YtPageAt(pages, page).hasNextPage && |YtKept(o, c, YtCollected(pages, page + 1))| < maxResults
  }

  /** What `query_youtube` returns: the kept videos of the pages read up to
      the first without a next token or with the cap reached, cut to
      `maxResults`. */
  ghost predicate YoutubeAnswer(o: Oracle, c: Criteria, maxResults: int, pages: seq<YtPage>, tracks: seq<Track>) {
    exists read: nat ::
      && 1 <= read
      && (forall p :: 0 <= p < read - 1 ==> YtContinues(o, c, maxResults, pages, p))
      && !YtContinues(o, c, maxResults, pages, read - 1)
      && tracks == Take(YtKept(o, c, YtCollected(pages, read)), maxResults)
  }

  /** Stopping after page `page` yields a YouTube answer. */
  lemma YtStopAfter(o: Oracle, c: Criteria, maxResults: int, pages: seq<YtPage>, page: nat, tracks: seq<Track>)
    requires forall p :: 0 <= p < page ==> YtContinues(o, c, maxResults, pages, p)
    requires !YtContinues(o, c, maxResults, pages, page)
    requires tracks == Take(YtKept(o, c, YtCollected(pages, page + 1)), maxResults)
    ensures YoutubeAnswer(o, c, maxResults, pages, tracks)
    ensures |tracks| <= Cap(maxResults)
    ensures forall t :: t in tracks ==>
      t.platform == YoutubePlatform && t.artist == None && !Banned(o, c.banned, t.title)
  {
    assert page + 1 - 1 == page;
    YtKeptTracks(o, c, YtCollected(pages, page + 1));
  }

  /** When the cap is reached at video `j` of page `page`, the loop stops
      there and what it has is the first `maxResults` kept tracks of the
      whole page: the videos after `j` cannot change them. */
  lemma YtCapReached(o: Oracle, c: Criteria, maxResults: int, pages: seq<YtPage>, page: nat, j: nat,
                     results: seq<Track>)
    requires j < |YtPageAt(pages, page).videos|
    requires results == YtKept(o, c, YtCollected(pages, page) + YtPageAt(pages, page).videos[..j + 1])
    requires |results| >= maxResults
    requires maxResults > 0 || |results| <= 1
    ensures !YtContinues(o, c, maxResults, pages, page)
    ensures PySlice(results, maxResults) == Take(YtKept(o, c, YtCollected(pages, page + 1)), maxResults)
  {
    var before := YtCollected(pages, page);
    var videos := YtPageAt(pages, page).videos;
    KeepAcceptedAppend(before + videos[..j + 1], videos[j + 1..], YtAcceptor(o, c), YtTrack);
    assert before + videos[..j + 1] + videos[j + 1..] == before + videos;
    TakeOfLonger(results, YtKept(o, c, videos[j + 1..]), maxResults);
    PySliceIsTake(results, maxResults);
  }

  /** The `for` loop of `query_youtube` over the videos of page `page`:
      appends the accepted ones to `kept` and stops early, cutting to
      `maxResults`, once there are that many. */
  method KeepVideos(o: Oracle, c: Criteria, maxResults: int, ghost pages: seq<YtPage>, ghost page: nat,
                    videos: seq<Video>, kept: seq<Track>)
    returns (results: seq<Track>, capped: bool)
    requires videos == YtPageAt(pages, page).videos
    requires kept == YtKept(o, c, YtCollected(pages, page))
    requires |kept| < maxResults || (page == 0 && kept == [])
    ensures capped ==> !YtContinues(o, c, maxResults, pages, page)
    ensures capped ==> results == Take(YtKept(o, c, YtCollected(pages, page + 1)), maxResults)
    ensures !capped ==> results == YtKept(o, c, YtCollected(pages, page + 1))
    ensures !capped ==> |results| < maxResults || (page == 0 && results == [])
  {
    results := kept;
    ghost var before := YtCollected(pages, page);
    assert YtCollected(pages, page + 1) == before + videos;
    assert before + videos[..0] == before;
    for j := 0 to |videos|
      invariant results == YtKept(o, c, before + videos[..j])
      invariant |results| < maxResults || (page == 0 && results == [] && j == 0)
    {
      var v := videos[j];
      KeepAcceptedAppend(before + videos[..j], [v], YtAcceptor(o, c), YtTrack);
      assert before + videos[..j + 1] == before + videos[..j] + [v];
      if QueryFilter(o, c.query, v.title, v.channel, v.durationSeconds, c.minSeconds, c.maxSeconds, c.banned) {
        results := results + [YtTrack(v)];
      }
      if |results| >= maxResults {
        YtCapReached(o, c, maxResults, pages, page, j, results);
        return PySlice(results, maxResults), true;
      }
    }
    assert videos[..|videos|] == videos;
    capped := false;
  }

  /** `query_youtube`, with the API client replaced by the pages it returns. */
  method QueryYoutube(o: Oracle, c: Criteria, maxResults: int, apiKey: string, pages: seq<YtPage>)
    returns (r: Answer)
    ensures r.MissingYoutubeKey? <==> apiKey == ""
    ensures r.Tracks? ==> YoutubeAnswer(o, c, maxResults, pages, r.tracks)
    ensures r.Tracks? ==> |r.tracks| <= Cap(maxResults)
    ensures r.Tracks? ==> forall t :: t in r.tracks ==>
      t.platform == YoutubePlatform && t.artist == None && !Banned(o, c.banned, t.title)
  {
    if apiKey == "" {
      return MissingYoutubeKey;
    }
    var results: seq<Track> := [];
    var page: nat := 0;
    while true
      invariant page <= |pages|
      invariant forall p :: 0 <= p < page ==> YtContinues(o, c, maxResults, pages, p)
      invariant results == YtKept(o, c, YtCollected(pages, page))
      invariant |results| < maxResults || (page == 0 && results == [])
      decreases |pages| - page
    {
      var capped;
      results, capped := KeepVideos(o, c, maxResults, pages, page, YtPageAt(pages, page).videos, results);
      if capped {
        YtStopAfter(o, c, maxResults, pages, page, results);
        return Tracks(results);
      }
      if YtPageAt(pages, page).hasNextPage && |results| < maxResults {
        page := page + 1;
      } else {
        assert results == Take(YtKept(o, c, YtCollected(pages, page + 1)), maxResults);
        YtStopAfter(o, c, maxResults, pages, page, results);
        break;
      }
    }
    return Tracks(results);
  }

  // --------------------------------------------------------- both platforms

  /** What `query_media` returns: the SoundCloud part (when asked for)
      followed by the YouTube part (when asked for). */
  ghost predicate MediaAnswer(o: Oracle, platforms: seq<string>, c: Criteria, maxResults: int,
                              clientId: string, api: seq<ScResponse>, pages: seq<YtPage>, tracks: seq<Track>) {
    exists cut :: 0 <= cut <= |tracks|
      && (if SoundcloudPlatform in platforms then SoundcloudPart(o, c, maxResults, clientId, api, tracks[..cut])
          else cut == 0)
      && (if YoutubePlatform in platforms then YoutubeAnswer(o, c, maxResults, pages, tracks[cut..])
          else cut == |tracks|)
  }

  /** The tracks one platform contributed to `query_media`: each from that
      platform, without an artist and not banned. */
  predicate FromPlatform(o: Oracle, c: Criteria, platform: string, tracks: seq<Track>) {
    forall t :: t in tracks ==> t.platform == platform && t.artist == None && !Banned(o, c.banned, t.title)
  }

  /** Joining the SoundCloud part and the YouTube part gives a media answer
      with every SoundCloud track before every YouTube track. */
  lemma JoinParts(o: Oracle, platforms: seq<string>, c: Criteria, maxResults: int,
                  clientId: string, api: seq<ScResponse>, pages: seq<YtPage>,
                  fromSoundcloud: seq<Track>, fromYoutube: seq<Track>)
    requires if SoundcloudPlatform in platforms
             then SoundcloudPart(o, c, maxResults, clientId, api, fromSoundcloud)
             else fromSoundcloud == []
    requires if YoutubePlatform in platforms
             then YoutubeAnswer(o, c, maxResults, pages, fromYoutube)
             else fromYoutube == []
    requires FromPlatform(o, c, SoundcloudPlatform, fromSoundcloud)
    requires FromPlatform(o, c, YoutubePlatform, fromYoutube)
    ensures MediaAnswer(o, platforms, c, maxResults, clientId, api, pages, fromSoundcloud + fromYoutube)
    ensures forall i, j ::
              (0 <= i < j < |fromSoundcloud + fromYoutube| &&
               (fromSoundcloud + fromYoutube)[j].platform == SoundcloudPlatform) ==>
              (fromSoundcloud + fromYoutube)[i].platform == SoundcloudPlatform
    ensures forall t :: t in fromSoundcloud + fromYoutube ==>
      ((t.platform == SoundcloudPlatform && SoundcloudPlatform in platforms) ||
       (t.platform == YoutubePlatform && YoutubePlatform in platforms)) &&
      t.artist == None && !Banned(o, c.banned, t.title)
  {
    var tracks := fromSoundcloud + fromYoutube;
    var cut := |fromSoundcloud|;
    assert tracks[..cut] == fromSoundcloud && tracks[cut..] == fromYoutube;
    forall i, j | 0 <= i < j < |tracks| && tracks[j].platform == SoundcloudPlatform
      ensures tracks[i].platform == SoundcloudPlatform
    {
      assert tracks[i] in fromSoundcloud;
    }
  }

  /** `query_media`: SoundCloud first, then YouTube, each only when named. */
  method QueryMedia(o: Oracle, platforms: seq<string>, c: Criteria, maxResults: int,
                    clientId: string, api: seq<ScResponse>, apiKey: string, pages: seq<YtPage>)
    returns (r: Answer)
    requires DurationsPresent(api)
    ensures r.MissingYoutubeKey? <==> YoutubePlatform in platforms && apiKey == ""
    ensures r.Tracks? ==> MediaAnswer(o, platforms, c, maxResults, clientId, api, pages, r.tracks)
    ensures r.Tracks? ==> |r.tracks| <= 2 * Cap(maxResults)
    ensures r.Tracks? ==> forall i, j :: 0 <= i < j < |r.tracks| && r.tracks[j].platform == SoundcloudPlatform ==>
                            r.tracks[i].platform == SoundcloudPlatform
    ensures r.Tracks? ==> forall t :: t in r.tracks ==>
      ((t.platform == SoundcloudPlatform && SoundcloudPlatform in platforms) ||
       (t.platform == YoutubePlatform && YoutubePlatform in platforms)) &&
      t.artist == None && !Banned(o, c.banned, t.title)
  {
    var fromSoundcloud: seq<Track> := [];
    if SoundcloudPlatform in platforms {
      fromSoundcloud := QuerySoundcloud(o, c, maxResults, clientId, api);
    }
    var fromYoutube: seq<Track> := [];
    if YoutubePlatform in platforms {
      var answer := QueryYoutube(o, c, maxResults, apiKey, pages);
      if answer.MissingYoutubeKey? {
        return MissingYoutubeKey;
      }
      fromYoutube := answer.tracks;
    }
    JoinParts(o, platforms, c, maxResults, clientId, api, pages, fromSoundcloud, fromYoutube);
    return Tracks(fromSoundcloud + fromYoutube);
  }

  // ----------------------------------------------------------------- artists

  const ArtistPlatforms: seq<string> := [YoutubePlatform, SoundcloudPlatform]
  const ArtistMaxResults := 400
  const ArtistBanned: seq<string> := ["beat", "slowed", "reverb", "free"]

  /** The fixed settings of an artist query: 60 to 390 seconds, no beats,
      slowed, reverb or free versions. */
  function ArtistCriteria(artist: string): Criteria {
    Criteria(artist, 60.0, 390.0, ArtistBanned)
  }

  /** The `for` loop of `query_artist`: writes `artist` into every track. */
  method WriteArtist(found: seq<Track>, artist: string) returns (tracks: seq<Track>)
    ensures |tracks| == |found|
    ensures forall i :: 0 <= i < |found| ==> tracks[i] == found[i].(artist := Some(artist))
  {
    tracks := found;
    for i := 0 to |tracks|
      invariant |tracks| == |found|
      invariant forall k :: 0 <= k < i ==> tracks[k] == found[k].(artist := Some(artist))
      invariant forall k :: i <= k < |tracks| ==> tracks[k] == found[k]
    {
      tracks := tracks[i := tracks[i].(artist := Some(artist))];
    }
  }

  /** Writing the artist keeps the titles, so the tracks stay unbanned. */
  lemma ArtistWritten(o: Oracle, found: seq<Track>, tracks: seq<Track>, artist: string)
    requires |tracks| == |found|
    requires forall i :: 0 <= i < |found| ==> tracks[i] == found[i].(artist := Some(artist))
    requires forall t :: t in found ==> !Banned(o, ArtistBanned, t.title)
    ensures forall t :: t in tracks ==> t.artist == Some(artist) && !Banned(o, ArtistBanned, t.title)
  {
    forall t | t in tracks
      ensures t.artist == Some(artist) && !Banned(o, ArtistBanned, t.title)
    {
      var k :| 0 <= k < |tracks| && tracks[k] == t;
      assert found[k] in found;
    }
  }

  /** `tracks` is the two-platform answer for the artist settings with the
      artist written into every track. */
  ghost predicate ArtistAnswer(o: Oracle, artist: string, clientId: string, api: seq<ScResponse>,
                               pages: seq<YtPage>, tracks: seq<Track>) {
    exists found: seq<Track> ::
      && MediaAnswer(o, ArtistPlatforms, ArtistCriteria(artist), ArtistMaxResults, clientId, api, pages, found)
      && |found| == |tracks|
      && forall i :: 0 <= i < |found| ==> tracks[i] == found[i].(artist := Some(artist))
  }

  /** `query_artist`: both platforms with the artist settings, then the
      artist written into every track. */
  method QueryArtist(artist: string, o: Oracle, clientId: string, api: seq<ScResponse>,
                     apiKey: string, pages: seq<YtPage>)
    returns (r: Answer)
    requires DurationsPresent(api)
    ensures r.MissingYoutubeKey? <==> apiKey == ""
    ensures r.Tracks? ==> ArtistAnswer(o, artist, clientId, api, pages, r.tracks)
    ensures r.Tracks? ==> |r.tracks| <= 2 * ArtistMaxResults
    ensures r.Tracks? ==> forall t :: t in r.tracks ==>
      t.artist == Some(artist) && !Banned(o, ArtistBanned, t.title)
  {
    var media := QueryMedia(o, ArtistPlatforms, ArtistCriteria(artist), ArtistMaxResults, clientId, api, apiKey, pages);
    if media.MissingYoutubeKey? {
      return MissingYoutubeKey;
    }
    var tracks := WriteArtist(media.tracks, artist);
    ArtistWritten(o, media.tracks, tracks, artist);
    return Tracks(tracks);
  }
}
