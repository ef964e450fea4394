/** `MediaDownloader`: fetches an artist's tracks and files each one that the
    catalog does not hold yet. */
module Ingestion {
  import opened Json
  import opened FilePaths
  import opened UuidSource
  import opened QuerySources
  import opened Catalog

  const LinkKey := "link"
  const DateKey := "date_extracted"
  const MediaRoot := "dev/shm/"
  const Complete := "Complete!"

  /** What a downloader reports: the path it names, and the files it wrote. */
  datatype Download = Download(path: string, written: set<string>)

  /** `download_youtube` and `download_soundcloud`, each applied to a link,
      the media folder and a file name. */
  datatype Downloader = Downloader(
    youtube: (string, string, string) -> Download,
    soundcloud: (string, string, string) -> Download)

  /** The downloader `download_artist` picks by the track's platform. */
  function Fetch(dl: Downloader, song: Track, folder: string, name: string): (d: Download)
    ensures song.platform == YoutubePlatform ==> d == dl.youtube(song.link, folder, name)
    ensures song.platform != YoutubePlatform ==> d == dl.soundcloud(song.link, folder, name)
  {
    if song.platform == YoutubePlatform then dl.youtube(song.link, folder, name)
    else dl.soundcloud(song.link, folder, name)
  }

  /** The reported path, or its ".mp3" conversion, was written. */
  predicate Delivers(d: Download) {
    d.path in d.written || (Name(d.path) != "" && WithSuffix(d.path, Mp3) in d.written)
  }

  /** A downloader whose every download delivers. */
  ghost predicate Reliable(dl: Downloader) {
    forall song: Track, folder: string, name: string :: Delivers(Fetch(dl, song, folder, name))
  }

  /** The track dict once `download_artist` has added where the file is and
      the day it was fetched. */
  function Stamped(song: Track, path: string, today: string): (row: Dict)
    ensures row.Keys == song.AsDict().Keys + {FilepathKey, DateKey}
    ensures row[FilepathKey] == Str(path) && row[DateKey] == Str(today)
    ensures forall k :: k in song.AsDict() ==> row[k] == song.AsDict()[k]
  {
    song.AsDict()[FilepathKey := Str(path)][DateKey := Str(today)]
  }

  /** Stamping adds to a track's dict without losing it: the stamped row
      reads back as the track. */
  lemma StampedKeepsTrack(song: Track, path: string, today: string)
    ensures TrackOf(Stamped(song, path, today)) == Some(song)
  {
    AsDictRoundTrip(song);
  }

  /** Pointing a stamped row at another file is stamping it with that file. */
  lemma RestampPath(song: Track, path: string, stored: string, today: string)
    ensures Stamped(song, path, today)[FilepathKey := Str(stored)] == Stamped(song, stored, today)
  {
    var moved := Stamped(song, path, today)[FilepathKey := Str(stored)];
    assert moved.Keys == Stamped(song, stored, today).Keys;
  }

  /** The row is one of the songs, stamped with some file and with `today`. */
  ghost predicate FromSong(row: Dict, songs: seq<Track>, today: string) {
    exists i, stored :: 0 <= i < |songs| && row == Stamped(songs[i], stored, today)
  }

  /** No row other than `id` holds the link that `id` holds. */
  ghost predicate UniqueLink(files: map<string, Dict>, id: string)
    requires id in files
  {
    LinkKey in files[id] ==>
      forall other :: other in files && other != id && LinkKey in files[other] ==>
        files[other][LinkKey] != files[id][LinkKey]
  }

  /** Some row holds `link`. */
  ghost predicate LinkStored(files: map<string, Dict>, link: string) {
    exists id :: id in files && Matches(files[id], LinkKey, link)
  }

  /** A row filed for `artist` by `download_artist` without review: it
      carries the artist, and its title passed the artist search's ban list. */
  predicate ArtistRow(row: Dict, o: Oracle, artist: string) {
    && "artist" in row && row["artist"] == Str(artist)
    && "title" in row && row["title"].Str? && !Banned(o, ArtistBanned, row["title"].s)
  }

  /** A track `query_artist` returns, once stamped, is such a row. */
  lemma StampedArtistRow(song: Track, stored: string, today: string, o: Oracle, artist: string)
    requires song.artist == Some(artist) && !Banned(o, ArtistBanned, song.title)
    ensures ArtistRow(Stamped(song, stored, today), o, artist)
  {
    assert "artist" in song.AsDict() && "title" in song.AsDict();
  }

  /** Rows filed from `query_artist`'s tracks are artist rows. */
  lemma ArtistRowsFiled(before: map<string, Dict>, after: map<string, Dict>, songs: seq<Track>,
                        today: string, o: Oracle, artist: string)
    requires NewRowsFromSongs(before, after, songs, today)
    requires forall t :: t in songs ==> t.artist == Some(artist) && !Banned(o, ArtistBanned, t.title)
    ensures forall id :: id in after && id !in before ==> ArtistRow(after[id], o, artist)
  {
    forall id | id in after && id !in before
      ensures ArtistRow(after[id], o, artist)
    {
      var i, stored :| 0 <= i < |songs| && after[id] == Stamped(songs[i], stored, today);
      assert songs[i] in songs;
      StampedArtistRow(songs[i], stored, today, o, artist);
    }
  }

  /** Every song's link is held by some row. */
  ghost predicate AllStored(files: map<string, Dict>, songs: seq<Track>) {
    forall k :: 0 <= k < |songs| ==> LinkStored(files, songs[k].link)
  }

  /** Storing song `i`'s link extends the stored prefix by one. */
  lemma StoredOneMore(files: map<string, Dict>, songs: seq<Track>, i: nat)
    requires i < |songs| && AllStored(files, songs[..i]) && LinkStored(files, songs[i].link)
    ensures AllStored(files, songs[..i + 1])
  {
    assert songs[..i + 1] == songs[..i] + [songs[i]];
  }

  /** A table that keeps every link of another keeps its stored songs. */
  lemma AllStoredGrows(before: map<string, Dict>, after: map<string, Dict>, songs: seq<Track>)
    requires AllStored(before, songs)
    requires forall link :: LinkStored(before, link) ==> LinkStored(after, link)
    ensures AllStored(after, songs)
  {
  }

  /** The rows of `before` are still there unchanged. */
  ghost predicate KeepsRows(before: map<string, Dict>, after: map<string, Dict>) {
    forall id :: id in before ==> id in after && after[id] == before[id]
  }

  /** Every row added since `before` comes from one of the songs and is the
      only row with its link. */
  ghost predicate NewRowsFromSongs(before: map<string, Dict>, after: map<string, Dict>,
                                   songs: seq<Track>, today: string) {
    forall id :: id in after && id !in before ==> FromSong(after[id], songs, today) && UniqueLink(after, id)
  }

  /** The state a run of `download_artist` moves through between two songs:
      the catalog's table, the files on disk and how many uuids were drawn. */
  datatype Shelf = Shelf(files: map<string, Dict>, disk: set<string>, drawn: nat)

  /** What stays fixed during a run: the data folder, the media folder, the
      uuid stream, the downloaders and today's date. */
  datatype Setting = Setting(data: string, folder: string, draw: imap<nat, string>,
                             dl: Downloader, today: string)

  /** The download of `song` at `s`: the next draw names the file. */
  function DownloadFor(st: Setting, song: Track, s: Shelf): Download
    requires s.drawn in st.draw
  {
    Fetch(st.dl, song, st.folder, st.draw[s.drawn])
  }

  /** Filing `song` from `s` on: one draw names the download, whose files
      appear on disk, and `move_file` gets the stamped track. A picked file is
      moved in and its row added, which takes at least two more draws;
      otherwise (a missing file, or a path without a name) nothing else
      changes. */
  ghost predicate Fetched(st: Setting, song: Track, s: Shelf, s': Shelf) {
    && s.drawn in st.draw
    && var d := DownloadFor(st, song, s);
       var disk := s.disk + d.written;
       var pick := PickSource(d.path, disk);
       if pick.Use? then
         s.drawn + 2 < s'.drawn &&
         Moved(s.files, disk, s'.files, s'.disk, st.data, Stamped(song, d.path, st.today), pick.path)
       else
         s' == Shelf(s.files, disk, s.drawn + 1)
  }

  /** `move_file` raises ValueError on the download of `song` at `s`: the
      path reported names no file. */
  ghost predicate FetchFails(st: Setting, song: Track, s: Shelf) {
    && s.drawn in st.draw
    && var d := DownloadFor(st, song, s);
       PickSource(d.path, s.disk + d.written) == Nameless
  }

  /** One turn of `download_artist`'s loop: a song whose link a row holds is
      skipped, which draws nothing and writes nothing; any other is fetched
      and filed. */
  ghost predicate SongStep(st: Setting, song: Track, s: Shelf, s': Shelf) {
    if LinkStored(s.files, song.link) then s' == s else Fetched(st, song, s, s')
  }

  /** The turn for `song` at `s` raises. */
  ghost predicate Fails(st: Setting, song: Track, s: Shelf) {
    !LinkStored(s.files, song.link) && FetchFails(st, song, s)
  }

  /** `trace` is the run of `download_artist`'s loop over `songs`, one state
      per song reached: each turn is a `SongStep`, the run goes on while no
      turn raises, and it ends with "Complete!" after the last song or with
      the ValueError of the first turn that raises. */
  ghost predicate Run(st: Setting, songs: seq<Track>, trace: seq<Shelf>, r: Result<string>) {
    && 1 <= |trace| <= |songs| + 1
    && (forall k :: 0 <= k < |trace| - 1 ==> SongStep(st, songs[k], trace[k], trace[k + 1]))
    && (forall k :: 0 <= k < |trace| - 1 ==> (Fails(st, songs[k], trace[k]) <==> r.Err? && k == |trace| - 2))
    && (r.Ok? ==> |trace| == |songs| + 1 && r.value == Complete)
    && (r.Err? ==> |trace| >= 2 && r.error == ValueError)
  }

  /** `trace` holds the states before each of the first `i` songs and after
      them, and none of those turns raised. */
  ghost predicate RanTo(st: Setting, songs: seq<Track>, trace: seq<Shelf>, i: nat) {
    && i <= |songs| && |trace| == i + 1
    && forall k :: 0 <= k < i ==> SongStep(st, songs[k], trace[k], trace[k + 1]) && !Fails(st, songs[k], trace[k])
  }

  /** A turn that does not raise extends the run by one song. */
  lemma RanOneMore(st: Setting, songs: seq<Track>, trace: seq<Shelf>, i: nat, next: Shelf)
    requires RanTo(st, songs, trace, i) && i < |songs|
    requires SongStep(st, songs[i], trace[i], next) && !Fails(st, songs[i], trace[i])
    ensures RanTo(st, songs, trace + [next], i + 1)
  {
    var longer := trace + [next];
    forall k | 0 <= k < i + 1
      ensures SongStep(st, songs[k], longer[k], longer[k + 1]) && !Fails(st, songs[k], longer[k])
    {
      assert longer[k] == trace[k];
      if k < i {
        assert longer[k + 1] == trace[k + 1];
      }
    }
  }

  /** A run over every song completes. */
  lemma RanAll(st: Setting, songs: seq<Track>, trace: seq<Shelf>)
    requires RanTo(st, songs, trace, |songs|)
    ensures Run(st, songs, trace, Ok(Complete))
  {
  }

  /** A turn that raises ends the run with its ValueError. */
  lemma RanIntoError(st: Setting, songs: seq<Track>, trace: seq<Shelf>, i: nat, next: Shelf)
    requires RanTo(st, songs, trace, i) && i < |songs|
    requires SongStep(st, songs[i], trace[i], next) && Fails(st, songs[i], trace[i])
    ensures Run(st, songs, trace + [next], Err(ValueError))
  {
    var longer := trace + [next];
    forall k | 0 <= k < i + 1
      ensures SongStep(st, songs[k], longer[k], longer[k + 1])
      ensures Fails(st, songs[k], longer[k]) <==> k == i
    {
      assert longer[k] == trace[k];
      if k < i {
        assert longer[k + 1] == trace[k + 1];
      }
    }
  }

  /** The loop over `songs` ran from `before` to `after` as `trace` says:
      old rows stay, every new row is one of the songs and the only row
      with its link, and with downloaders that deliver the run completes
      with every song's link stored. */
  ghost predicate Ingested(st: Setting, songs: seq<Track>, trace: seq<Shelf>, r: Result<string>,
                           before: Shelf, after: Shelf) {
    && Run(st, songs, trace, r)
    && trace[0] == before && trace[|trace| - 1] == after
    && KeepsRows(before.files, after.files)
    && NewRowsFromSongs(before.files, after.files, songs, st.today)
    && (Reliable(st.dl) ==> r.Ok? && AllStored(after.files, songs))
  }

  /** The loop has handled the first `i` songs, going from `start` to
      `now` as `trace` says, with the invariants `Ingested` promises. */
  ghost predicate Progress(st: Setting, songs: seq<Track>, trace: seq<Shelf>, i: nat,
                           start: Shelf, now: Shelf) {
    && RanTo(st, songs, trace, i) && trace[0] == start && trace[i] == now
    && KeepsRows(start.files, now.files)
    && NewRowsFromSongs(start.files, now.files, songs, st.today)
    && (Reliable(st.dl) ==> AllStored(now.files, songs[..i]))
  }

  /** Skipping a song whose link is stored keeps the invariants. */
  lemma SkipProgress(st: Setting, songs: seq<Track>, trace: seq<Shelf>, i: nat, start: Shelf, now: Shelf)
    requires Progress(st, songs, trace, i, start, now) && i < |songs|
    requires LinkStored(now.files, songs[i].link)
    ensures Progress(st, songs, trace + [now], i + 1, start, now)
  {
    RanOneMore(st, songs, trace, i, now);
    if Reliable(st.dl) {
      StoredOneMore(now.files, songs, i);
    }
  }

  /** Filing a song whose link is not stored keeps the invariants, unless
      `move_file` raised. */
  lemma FileProgress(st: Setting, songs: seq<Track>, trace: seq<Shelf>, i: nat,
                     start: Shelf, now: Shelf, next: Shelf)
    requires Progress(st, songs, trace, i, start, now) && i < |songs|
    requires !LinkStored(now.files, songs[i].link)
    requires Fetched(st, songs[i], now, next) && !FetchFails(st, songs[i], now)
    requires next.files == now.files || AddsSong(now.files, next.files, songs[i], st.today)
    requires Reliable(st.dl) ==> AddsSong(now.files, next.files, songs[i], st.today)
    ensures Progress(st, songs, trace + [next], i + 1, start, next)
  {
    RanOneMore(st, songs, trace, i, next);
    if AddsSong(now.files, next.files, songs[i], st.today) {
      var id, stored :| id !in now.files && next.files == now.files[id := Stamped(songs[i], stored, st.today)];
      forall x | x in now.files ensures !Matches(now.files[x], LinkKey, songs[i].link) {
      }
      AddRow(start.files, now.files, id, songs, i, stored, st.today);
      if Reliable(st.dl) {
        AllStoredGrows(now.files, next.files, songs[..i]);
        StoredOneMore(next.files, songs, i);
      }
    }
  }

  /** The loop ends after the last song with "Complete!". */
  lemma ProgressDone(st: Setting, songs: seq<Track>, trace: seq<Shelf>, start: Shelf, now: Shelf)
    requires Progress(st, songs, trace, |songs|, start, now)
    ensures Ingested(st, songs, trace, Ok(Complete), start, now)
  {
    assert songs[..|songs|] == songs;
    RanAll(st, songs, trace);
  }

  /** A song on which `move_file` raises ends the loop with ValueError;
      downloaders that deliver never get there. */
  lemma ProgressError(st: Setting, songs: seq<Track>, trace: seq<Shelf>, i: nat,
                      start: Shelf, now: Shelf, next: Shelf)
    requires Progress(st, songs, trace, i, start, now) && i < |songs|
    requires !LinkStored(now.files, songs[i].link)
    requires Fetched(st, songs[i], now, next) && FetchFails(st, songs[i], now)
    ensures Ingested(st, songs, trace + [next], Err(ValueError), start, next)
  {
    RanIntoError(st, songs, trace, i, next);
    assert !Delivers(DownloadFor(st, songs[i], now));
  }

  /** A stored link stays stored for the rest of a run. */
  lemma {:induction false} StoredLinkStays(st: Setting, songs: seq<Track>, trace: seq<Shelf>, r: Result<string>,
                                           j: nat, k: nat, link: string)
    requires Run(st, songs, trace, r) && j <= k < |trace|
    requires LinkStored(trace[j].files, link)
    ensures LinkStored(trace[k].files, link)
    decreases k - j
  {
    if j < k {
      var s, s' := trace[j], trace[j + 1];
      assert SongStep(st, songs[j], s, s');
      if !LinkStored(s.files, songs[j].link) {
        var d := DownloadFor(st, songs[j], s);
        var disk := s.disk + d.written;
        var pick := PickSource(d.path, disk);
        if pick.Use? {
          var stem, id :| MovedInto(s.files, disk, s'.files, s'.disk, st.data, stem, id,
                                    Stamped(songs[j], d.path, st.today), pick.path);
          AddRowKeepsLinks(s.files, id, s'.files[id]);
          assert s'.files == s.files[id := s'.files[id]];
        }
      }
      StoredLinkStays(st, songs, trace, r, j + 1, k, link);
    }
  }

  /** Of two songs sharing a link, once the earlier one is filed the later
      one is skipped: its turn draws nothing and writes nothing. */
  lemma LaterDuplicateSkipped(st: Setting, songs: seq<Track>, trace: seq<Shelf>, r: Result<string>,
                              j: nat, k: nat)
    requires Run(st, songs, trace, r) && j < k < |trace| - 1
    requires songs[j].link == songs[k].link
    requires trace[j + 1].files != trace[j].files
    ensures trace[k + 1] == trace[k]
  {
    var s, s' := trace[j], trace[j + 1];
    assert SongStep(st, songs[j], s, s');
    assert !LinkStored(s.files, songs[j].link);
    var d := DownloadFor(st, songs[j], s);
    var disk := s.disk + d.written;
    var pick := PickSource(d.path, disk);
    var stem, id :| MovedInto(s.files, disk, s'.files, s'.disk, st.data, stem, id,
                              Stamped(songs[j], d.path, st.today), pick.path);
    assert Matches(s'.files[id], LinkKey, songs[j].link);
    StoredLinkStays(st, songs, trace, r, j + 1, k, songs[k].link);
    assert SongStep(st, songs[k], trace[k], trace[k + 1]);
  }

  class MediaDownloader {
    const handler: DataHandler
    /** `dev/shm/<uuid>`, where downloads land before they are filed. */
    const mediaFolder: string

    ghost predicate Valid()
      reads this, handler, handler.rng
    {
      handler.Valid()
    }

    constructor (handler: DataHandler)
      requires handler.Valid()
      modifies handler.rng
      ensures Valid() && this.handler == handler
      ensures handler.rng.drawn == old(handler.rng.drawn) + 1
      ensures mediaFolder == MediaRoot + handler.rng.draw[old(handler.rng.drawn)]
    {
      this.handler := handler;
      var u := handler.rng.Uuid4();
      mediaFolder := MediaRoot + u;
    }

    /** The table, the disk and the uuids drawn so far. */
    function Now(): Shelf
      reads handler, handler.fs, handler.rng
    {
      Shelf(handler.files, handler.fs.files, handler.rng.drawn)
    }

    /** What a run of `download_artist` with `dl` on `today` keeps fixed. */
    function SettingFor(dl: Downloader, today: string): Setting {
      Setting(handler.data, mediaFolder, handler.rng.draw, dl, today)
    }

    /** `download_artist`: searches for the artist, lets the review pick and
        edit the hits when asked to, then files every song the catalog does
        not hold yet. `found` is the search's answer and `trace` the run of
        the loop over the songs. */
    method DownloadArtist(artist: string, o: Oracle, clientId: string, api: seq<ScResponse>,
                          apiKey: string, pages: seq<YtPage>, manualReview: bool,
                          review: seq<Track> -> seq<Track>, today: string, dl: Downloader)
      returns (r: Result<string>, ghost found: seq<Track>, ghost trace: seq<Shelf>)
      requires Valid() && DurationsPresent(api)
      modifies handler, handler.rng, handler.fs
      ensures Valid()
      ensures apiKey == "" ==> r == Err(ValueError) && Now() == old(Now())
      ensures apiKey != "" ==>
        && ArtistAnswer(o, artist, clientId, api, pages, found)
        && Ingested(SettingFor(dl, today), if manualReview then review(found) else found, trace, r, old(Now()), Now())
      ensures KeepsRows(old(handler.files), handler.files)
      ensures !manualReview ==> forall id :: id in handler.files && id !in old(handler.files) ==>
        ArtistRow(handler.files[id], o, artist)
    {
      var answer := QueryArtist(artist, o, clientId, api, apiKey, pages);
      if answer.MissingYoutubeKey? {
        return Err(ValueError), [], [];
      }
      var tracks := answer.tracks;
      found := tracks;
      var songs := if manualReview then review(tracks) else tracks;
      r, trace := IngestSongs(songs, today, dl);
      if !manualReview {
        ArtistRowsFiled(old(handler.files), handler.files, songs, today, o, artist);
      }
    }

    /** The loop of `download_artist`: a song whose link the catalog already
        holds is skipped; any other is downloaded under the next uuid,
        stamped and moved into the catalog. `trace` holds the state before
        each song reached and after the last. */
    method IngestSongs(songs: seq<Track>, today: string, dl: Downloader)
      returns (r: Result<string>, ghost trace: seq<Shelf>)
      requires Valid()
      modifies handler, handler.rng, handler.fs
      ensures Valid()
      ensures Ingested(SettingFor(dl, today), songs, trace, r, old(Now()), Now())
    {
      ghost var st := SettingFor(dl, today);
      trace := [Now()];
      for i := 0 to |songs|
        invariant Valid()
        invariant Progress(st, songs, trace, i, old(Now()), Now())
      {
        var song := songs[i];
        var existing := handler.ListMatchingPairs(LinkKey, song.link);
        if existing != map[] {
          ghost var id :| id in existing;
          assert Matches(handler.files[id], LinkKey, song.link);
          SkipProgress(st, songs, trace, i, old(Now()), Now());
          trace := trace + [Now()];
          continue;
        }
        assert !LinkStored(handler.files, song.link);
        ghost var now := Now();
        var filed := FetchAndFile(song, today, dl);
        if filed.Err? {
          ProgressError(st, songs, trace, i, old(Now()), now, Now());
          return Err(filed.error), trace + [Now()];
        }
        FileProgress(st, songs, trace, i, old(Now()), now, Now());
        trace := trace + [Now()];
      }
      ProgressDone(st, songs, trace, old(Now()), Now());
      return Ok(Complete), trace;
    }

    /** The body of `download_artist`'s loop for a song the catalog does
        not hold: download it under the next uuid, stamp it, move it in. */
    method FetchAndFile(song: Track, today: string, dl: Downloader) returns (r: Result<Transfer>)
      requires Valid()
      modifies handler, handler.rng, handler.fs
      ensures Valid()
      ensures Fetched(SettingFor(dl, today), song, old(Now()), Now())
      ensures r.Err? <==> FetchFails(SettingFor(dl, today), song, old(Now()))
      ensures r.Err? ==> r.error == ValueError
      ensures r != Ok(Transferred) ==> handler.files == old(handler.files)
      ensures r == Ok(Transferred) ==> AddsSong(old(handler.files), handler.files, song, today)
      ensures Reliable(dl) ==> r == Ok(Transferred)
    {
      var name := handler.rng.Uuid4();
      var download := Fetch(dl, song, mediaFolder, name);
      handler.fs.files := handler.fs.files + download.written;
      var metadata := Stamped(song, download.path, today);
      assert FilepathKey in metadata && metadata[FilepathKey] == Str(download.path);
      ghost var disk, before, drawn := handler.fs.files, handler.files, handler.rng.drawn;
      r := handler.MoveFile(metadata);
      ghost var pick := PickSource(download.path, disk);
      if Reliable(dl) {
        assert Delivers(download);
        assert pick.Use?;
      }
      if r == Ok(Transferred) {
        RowAddedIsSong(before, handler.files, song, download.path, today);
      }
    }
  }

  /** `after` is `before` with one more row, a stamped `song`, under a new id. */
  ghost predicate AddsSong(before: map<string, Dict>, after: map<string, Dict>, song: Track, today: string) {
    exists id, stored :: id !in before && after == before[id := Stamped(song, stored, today)]
  }

  /** A row added for the stamped download is the song, stamped. */
  lemma RowAddedIsSong(before: map<string, Dict>, after: map<string, Dict>, song: Track, path: string, today: string)
    requires RowAdded(before, after, Stamped(song, path, today))
    ensures AddsSong(before, after, song, today)
  {
    var id, stored :| id !in before && after == before[id := Stamped(song, path, today)[FilepathKey := Str(stored)]];
    RestampPath(song, path, stored, today);
  }

  /** Filing song `i`, whose link no row held, keeps the loop's invariants
      and stores its link. */
  lemma AddRow(start: map<string, Dict>, before: map<string, Dict>, id: string,
               songs: seq<Track>, i: nat, stored: string, today: string)
    requires i < |songs| && id !in before
    requires KeepsRows(start, before) && NewRowsFromSongs(start, before, songs, today)
    requires forall x :: x in before ==> !Matches(before[x], LinkKey, songs[i].link)
    ensures KeepsRows(start, before[id := Stamped(songs[i], stored, today)])
    ensures NewRowsFromSongs(start, before[id := Stamped(songs[i], stored, today)], songs, today)
    ensures LinkStored(before[id := Stamped(songs[i], stored, today)], songs[i].link)
    ensures forall link :: LinkStored(before, link) ==> LinkStored(before[id := Stamped(songs[i], stored, today)], link)
  {
    var row := Stamped(songs[i], stored, today);
    assert row[LinkKey] == Str(songs[i].link);
    assert FromSong(row, songs, today);
    AddUniqueRow(start, before, id, row, songs, today);
    AddRowKeepsLinks(before, id, row);
    assert Matches(before[id := row][id], LinkKey, songs[i].link);
  }

  /** A row whose link no other row holds keeps every new row's link unique. */
  lemma AddUniqueRow(start: map<string, Dict>, before: map<string, Dict>, id: string, row: Dict,
                     songs: seq<Track>, today: string)
    requires id !in before && LinkKey in row && row[LinkKey].Str?
    requires KeepsRows(start, before) && NewRowsFromSongs(start, before, songs, today)
    requires FromSong(row, songs, today)
    requires forall x :: x in before ==> !Matches(before[x], LinkKey, row[LinkKey].s)
    ensures KeepsRows(start, before[id := row])
    ensures NewRowsFromSongs(start, before[id := row], songs, today)
  {
    var after := before[id := row];
    forall x | x in after && x !in start
      ensures FromSong(after[x], songs, today) && UniqueLink(after, x)
    {
      if x != id {
        assert FromSong(before[x], songs, today) && UniqueLink(before, x);
        assert !Matches(before[x], LinkKey, row[LinkKey].s);
      }
    }
  }

  /** Adding a row loses no link. */
  lemma AddRowKeepsLinks(before: map<string, Dict>, id: string, row: Dict)
    requires id !in before
    ensures forall link :: LinkStored(before, link) ==> LinkStored(before[id := row], link)
  {
    forall link | LinkStored(before, link) ensures LinkStored(before[id := row], link) {
      var x :| x in before && Matches(before[x], LinkKey, link);
      assert x in before[id := row] && before[id := row][x] == before[x];
    }
  }
}
