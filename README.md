# Media catalog and track search: a Dafny model

This project models the core of a small tool that collects an artist's music.
The tool searches SoundCloud and YouTube for tracks that match a query. It keeps
the hits that pass a candidate filter: the duration lies inside bounds, no banned
word is in the title, and the query matches literally or by sentence similarity.
It downloads the songs the catalog does not hold yet and files each one in a
catalog, `DataHandler`. The catalog is a table from uuids to JSON metadata rows,
with one stored file per row in the project's `data` folder. A helper finds the
project folder by walking up from the running file.

The model is split into modules:

- `Json`: decoded metadata values, Python truthiness and `dict.update`.
- `TextMatch`: Python's `in` on strings and `any(...)`.
- `QuerySources`: `query_filter`, `query_soundcloud` and `query_youtube` over the
  pages their web APIs answer, `query_media` and `query_artist`.
- `FilePaths`: `pathlib` names, suffixes, `with_suffix` and `/` on normalised
  path strings, and the set of files that exist.
- `UuidSource`: `uuid4()` as a stream of draws fixed in advance.
- `Catalog`: the `DataHandler` class.
- `Ingestion`: the `MediaDownloader` class and `download_artist`.
- `ProjectPaths`: `get_project`.

Outside services are parameters:

- `unidecode`, `str.lower` and the sentence-similarity score are fields of an
  `Oracle`.
- The SoundCloud and YouTube APIs are the sequences of responses they return.
- The downloaders are functions from a link, a folder and a file name to the path
  they report and the files they wrote.
- The reviewer's choices are a function on the candidate list.
- Today's date is a string.

A raised Python exception is an `Err` value naming the exception, and the model
states when each one happens.

A run of `download_artist` is described state by state. A `Shelf` is the
catalog's table, the files on disk and the number of uuids drawn. The run's
`trace` holds the shelf before each song it reaches and after the last one.
`SongStep` says what one song does to the shelf, and `Run` says how the steps
chain and how the run ends.

## Model

| member | source | states |
|---|---|---|
| `Json.Merged` | app.py:138 | `existing.update(new)` keeps every key of both dicts; the new dict's values win and the other old values stay |
| `Json.MergeAbsorbs` | app.py:146-149 | merging a dict with a merge of itself equals the single merge, so `add_metadata`'s double merge changes nothing extra |
| `TextMatch.ContainsIffOccurs` | query_sources.py:18 | `needle in haystack` holds exactly when the needle occurs at some index; the empty needle always occurs |
| `TextMatch.AnyIn` | query_sources.py:13 | `any(sub in text for sub in subs)` is true exactly when some element of `subs` occurs in `text` |
| `QuerySources.BannedIffOccurs` | query_sources.py:11-13 | a title is banned iff the lower-cased form of some entry of the ban list occurs in the transliterated, lower-cased title |
| `QuerySources.QueryFilter` | query_sources.py:9-26 | an accepted hit has a duration strictly between the bounds, and no lower-cased banned substring occurs in its transliterated, lower-cased title |
| `QuerySources.LiteralMatchAccepts` | query_sources.py:16-18 | a hit that passes the duration and ban checks, and whose "title channel" contains the query case-insensitively, is accepted whatever the similarity oracle says |
| `QuerySources.SimilarityDecides` | query_sources.py:18-26 | without a literal match, a hit that passes the cheap checks is accepted iff the similarity of the lower-cased query and the transliterated, lower-cased "title channel" is at least 0.3 |
| `QuerySources.MoreBansRejectMore` | query_sources.py:11-14 | adding banned substrings never turns a rejected hit into an accepted one |
| `QuerySources.AsDictRoundTrip` | query_sources.py:96-98 | a hit's dict holds the whole hit: reading its title, link, platform and artist back gives the hit |
| `QuerySources.Take` | query_sources.py:103 | the result is the prefix of length min(len, max(n, 0)) |
| `QuerySources.PySliceIsTake` | query_sources.py:103 | Python's `s[:n]` equals that prefix whenever `n > 0` or the list has at most one element, which covers every slice the searchers take |
| `QuerySources.TakeOfLonger` | query_sources.py:152-153 | once a list has `n` elements, appending more leaves its first `n` unchanged |
| `QuerySources.KeepAccepted` | query_sources.py:87-98 | the tracks kept from a list of hits are no more than the hits, and each is the track of a hit the filter accepted |
| `QuerySources.KeepAcceptedAppend` | query_sources.py:80-98 | keeping the hits of two concatenated lists gives the kept hits of the first followed by those of the second |
| `QuerySources.ScKeptTracks` | query_sources.py:87-98 | every kept SoundCloud track has a title and a permalink, platform "soundcloud", no artist and a title free of banned substrings |
| `QuerySources.ScArtist` | query_sources.py:84-85 | the channel of a SoundCloud hit is the publisher's artist when that is non-empty, otherwise the uploader's username; it is absent only when both are |
| `QuerySources.FormattedCollides` | query_sources.py:16 | the f-string text of a channel tells two channels apart, except that a missing one and one named "None" both read "None" |
| `QuerySources.KeepListed` | query_sources.py:80-98 | the loop over one response appends to the tracks kept so far exactly the kept hits of that response, so the result is the kept hits of all responses read |
| `QuerySources.ScStopped` | query_sources.py:63-78 | stopping at a response with the cap reached, a non-200 status or an empty collection answers with the kept hits read so far, cut to the cap, each a filtered SoundCloud track |
| `QuerySources.QuerySoundcloud` | query_sources.py:28-103 | without a client id the result is empty. Otherwise it is the kept hits of the responses read until the cap is reached, a non-200 status or an empty collection, cut to `max_results`. The offset moves by exactly 50 per page. The result has at most `max_results` tracks, each a filtered SoundCloud hit |
| `QuerySources.YtKeptTracks` | query_sources.py:130-150 | every kept YouTube track is a watch link with platform "youtube", no artist and a title free of banned substrings |
| `QuerySources.YtStopAfter` | query_sources.py:155-167 | stopping after a page without a next token, or once the cap is reached, yields the first `max_results` kept videos of the pages read |
| `QuerySources.YtCapReached` | query_sources.py:152-153 | when the cap is reached at some video of a page, the early return gives the same tracks as keeping the whole page and cutting to the cap, and paging stops |
| `QuerySources.KeepVideos` | query_sources.py:130-153 | the loop over one page either returns early with the first `max_results` kept videos of the pages so far, and paging stops, or ends with all kept videos of the pages so far, still below the cap |
| `QuerySources.QueryYoutube` | query_sources.py:105-167 | a missing API key is the ValueError. Otherwise the result is the first `max_results` kept videos of the pages read along the token chain until there is no next token or the cap is reached, each a filtered YouTube track |
| `QuerySources.JoinParts` | query_sources.py:169-186 | concatenating the SoundCloud part and the YouTube part is a media answer, with every SoundCloud track before every YouTube track and every track from a named platform, without an artist and not banned |
| `QuerySources.QueryMedia` | query_sources.py:169-186 | the result is the SoundCloud answer, if SoundCloud is named, followed by the YouTube answer, if YouTube is named. The ValueError happens iff YouTube is named and the key is missing. All SoundCloud tracks come before all YouTube tracks, and every track's platform was named |
| `QuerySources.QueryArtist` | query_sources.py:188-200 | the result is the two-platform answer for the artist with min 60 s, max 390 s, cap 400 and bans beat/slowed/reverb/free, with `artist` set on every track. It has at most 800 tracks and no banned title |
| `QuerySources.WriteArtist` | query_sources.py:197-198 | every track, and nothing else about it, gets the artist; the list keeps its length and order |
| `QuerySources.ArtistWritten` | query_sources.py:197-198 | after the artist is written, every track carries that artist and still has a title free of the artist bans |
| `FilePaths.LastIndexOf` | app.py:46 | `rfind`: -1 or an index holding the character, with no occurrence after it |
| `FilePaths.Name` | app.py:61 | `PurePath.name` has no '/' and is the tail of the path |
| `FilePaths.Suffix` | app.py:46 | `PurePath.suffix` is empty, or a dot followed by at least one character with no other dot and no '/'. It is a proper tail of the name |
| `FilePaths.NameOfJoin` | app.py:46 | the name of `data / name` is `name` |
| `FilePaths.ParentOfJoin` | app.py:14 | the folder part of `project_path / "data"`, before the name and its '/', is `project_path` |
| `FilePaths.SuffixOfStemAndSuffix` | app.py:68 | a name made of a non-empty stem and a suffix has that suffix; a stem without a suffix must have no dot |
| `FilePaths.WithSuffixKeepsStem` | app.py:61 | `with_suffix(s)` on a path with a name gives a name made of the old name without its suffix, followed by `s` |
| `FilePaths.WithSuffixMp3` | app.py:61 | `path.with_suffix(".mp3")` has suffix ".mp3" for every path with a name |
| `UuidSource.Generator.Uuid4` | app.py:35 | `uuid4()` hands out the next draw of the stream, a uuid text, and advances the stream by one |
| `Catalog.StoredPathKeepsSuffix` | app.py:46 | a file stored as `data/<uuid><suffix>` is named `<uuid><suffix>` and keeps the suffix of its source |
| `Catalog.PickSource` | app.py:58-66 | `move_file` uses the path if it exists, else its `with_suffix(".mp3")` sibling if that exists. A path without a name raises ValueError, and anything else is skipped as missing |
| `Catalog.FallbackIsMp3` | app.py:60-63 | the sibling `move_file` falls back to always has suffix ".mp3" |
| `Catalog.DataHandler.constructor` | app.py:12-24 | the catalog of a project keeps its files in `<project>/data` and starts from the existing table |
| `Catalog.DataHandler.Search` | app.py:30-32 | `search` finds exactly the stored ids, and for a well-formed table a row is found (truthy) iff its id is stored |
| `Catalog.DataHandler.GenerateId` | app.py:34-38 | the id is a uuid that is not a stored id; every draw rejected before it was a stored id, and the table is unchanged |
| `Catalog.DataHandler.AddFile` | app.py:40-55 | KeyError, with nothing changed and no uuid drawn, iff `filepath` is missing or falsy. TypeError iff it is not a string. FileNotFoundError iff the source does not exist. Otherwise exactly one row is added under a fresh id, naming the copy `data/<id><suffix>`, which is added to the disk; all other keys and all other rows are unchanged |
| `Catalog.DataHandler.MoveFile` | app.py:57-84 | KeyError iff no `filepath`, and TypeError iff it is not a string. ValueError, skipped-missing or transferred exactly as `PickSource` decides. Only a transfer changes the table, the disk or the uuid stream. A transfer moves the picked file into the data folder and adds exactly one row, naming the moved file |
| `Catalog.DataHandler.TransferFile` | app.py:68-84 | the file moves from its source to `data/<uuid><suffix>` for a uuid stem. Exactly one row is added under a uuid id that was not stored, holding the given metadata with the new `filepath`; at least two uuids are drawn |
| `Catalog.MovedIntoAddsRow` | app.py:77-82 | a transfer adds exactly one row under a new id: the given metadata pointing at a stored file |
| `Catalog.DataHandler.DeleteFile` | app.py:87-98 | an unknown id changes nothing. A known id whose `filepath` is not a string raises TypeError and changes nothing. Otherwise exactly that row is removed, and its file is removed from the disk if present |
| `Catalog.DataHandler.DeleteFiles` | app.py:100-102 | deleting a sequence of ids removes exactly those rows and their files. It fails with TypeError iff some id has a non-string path, and then exactly the ids before the first such one are deleted |
| `Catalog.DeletedOneMore` | app.py:100-102 | one more `delete_file`, of a stored row or of an id no longer stored, extends the deleted prefix of `ids` by one: the rows of the prefix and their files are gone |
| `Catalog.DataHandler.ListMatchingPairs` | app.py:104-107 | the rows returned are exactly the stored rows whose `key` holds the string `value`, with their metadata |
| `Catalog.DataHandler.ListAllFiles` | app.py:119-121 | every row is listed, and each listing agrees with `search` |
| `Catalog.DataHandler.UpdateMetadata` | app.py:133-144 | KeyError, with the table unchanged, iff the id is not stored. Otherwise that row becomes the shallow merge with the new keys winning, the merge is returned, and other rows are unchanged |
| `Catalog.DataHandler.AddMetadata` | app.py:146-149 | an unknown id raises AttributeError on `None.update` and changes nothing. Otherwise the row becomes the single shallow merge |
| `Ingestion.Stamped` | app.py:200-201 | a stamped song has the track's keys plus `filepath` and `date_extracted`, holding the download path and today's date |
| `Ingestion.StampedKeepsTrack` | app.py:200-201 | stamping adds to a track's dict without losing it: the stamped row reads back as the track |
| `Ingestion.RestampPath` | app.py:77 | rewriting a stamped song's `filepath` equals stamping it with the new path |
| `Ingestion.StampedArtistRow` | query_sources.py:197-198 | a track from `query_artist`, once stamped, holds the artist and a title free of the artist bans |
| `Ingestion.MediaDownloader.constructor` | app.py:153-156 | the media folder is `dev/shm/<uuid>`, and it takes one draw of the uuid stream |
| `Ingestion.MediaDownloader.DownloadArtist` | app.py:182-205 | a missing YouTube key raises ValueError and changes nothing: no table row, no file, no uuid. Otherwise `found` is `query_artist`'s answer, the songs are `found` or the review's choice from it, and the loop over those songs runs as `Ingested` says. Old rows stay. Without review, every new row carries the artist and a title free of the bans |
| `Ingestion.MediaDownloader.IngestSongs` | app.py:189-205 | the loop runs song by song as `Run` says. A song whose link a row holds is skipped and draws no uuid and writes no file. Any other song is fetched and filed as `Fetched` says. The loop stops at the first ValueError and otherwise returns "Complete!". Old rows stay, and every new row is one of the songs, stamped, and the only row with its link. With downloaders that deliver, it completes and stores every song's link |
| `Ingestion.MediaDownloader.FetchAndFile` | app.py:195-203 | the next uuid names the download, which goes to the YouTube downloader for a YouTube track and to the SoundCloud one otherwise. The files it wrote are added to the disk. Then `move_file` gets the stamped track: a picked file is moved in and exactly one stamped row is added, after at least two more draws. Otherwise only the download's files are new. ValueError iff the reported path names no file. A delivering downloader always gains the row |
| `Ingestion.StoredLinkStays` | app.py:189-203 | once a row holds a link, it is held in every later state of the loop |
| `Ingestion.LaterDuplicateSkipped` | app.py:189-193 | of two songs sharing a link, once the earlier one is filed the later one is skipped: its turn changes nothing |
| `Ingestion.ArtistRowsFiled` | app.py:185-203 | rows filed from `query_artist`'s tracks carry the artist and a title free of the bans |
| `Ingestion.RowAddedIsSong` | app.py:200-203 | the row `move_file` adds for a stamped download is the song stamped with the stored file and today's date |
| `Ingestion.AddRow` | app.py:189-193 | filing a song whose link no row held keeps old rows and makes its link stored and unique, and no stored link is lost |
| `ProjectPaths.Parent` | utils/paths.py:7 | the root is the only folder that is its own parent, and any other folder's parent drops the last name |
| `ProjectPaths.GetProject` | utils/paths.py:3-11 | the result is the start folder or an ancestor named `name`, and the nearest one. FileNotFoundError iff no folder from the start up to and including the root has that name. With the default "" name, the root is found |

## Left out

- Floating point: durations and the similarity score are exact reals. The threshold `.3` is the real 0.3, and a millisecond duration divided by 1000 is exact.
- The HTTP side of both searchers is out of the model: client-id scraping, URLs, headers, timeouts, JSON decoding and the requested page sizes. The APIs are the sequences of responses they return, and a missing client id is the empty string.
- `isodate.parse_duration` is out: a video's duration is given in seconds.
- A SoundCloud hit with a title and a permalink but no duration is excluded by a precondition (`DurationsPresent`), because `query_filter` would raise on the None it becomes. The precondition covers every response given, including those after the one where paging stops, so it asks more than the searcher reaches.
- Paging ends in the model because the answers are finite sequences: after the last response SoundCloud answers 200 with an empty collection, and after the last page YouTube has no next token. The real `query_soundcloud` loops forever on a service that keeps answering 200 with hits the filter rejects, and `query_youtube` on an endless token chain of rejected videos; such services are not modelled.
- SQLite, JSON serialisation and row order are out: the table is a map, so the listings return maps rather than ordered lists.
- `list_matching_pairs` is modelled for plain keys and string values only. A key with json-path syntax and a non-string value are out.
- `list_matching_keys`, `list_matching_values` and `export_metadata_to_json` are not modelled: they rely on json-path and `LIKE` text semantics and on a global `project`.
- `review_queries` is console I/O: the reviewer is a function on the candidate list. Every `__main__` block is out.
- download_sources.py is not part of this model. Each downloader is a function giving the path it reports and the files it writes, and it never raises.
- `shutil.move` and its cross-device copy-and-unlink fallback have the same effect on the set of files, so they are one update. Folders and `mkdir` are not modelled.
- Paths are normalised strings. `Path("")` meaning "." is not modelled: an empty path is a path with no name.
- `FilePaths.Join` writes `dir + "/" + name`, so the root folder "/" gives "//x" where pathlib gives "/x", and the empty folder gives "/x" where pathlib gives "x". The name of the result is right in both cases, which is all the catalog relies on.
- `download_artist` calls `date.today()` once per song; the model stamps every song of a run with one `today`, so a run that crosses midnight is not modelled.
- `uuid4()` is a stream of draws. A uuid is non-empty text of hex digits and hyphens; its fixed length of 36 is not modelled. The stream must eventually draw an id outside any finite set, which is what makes `generate_id` terminate.
- `DataHandler` opens an existing table whose rows all name a file, which every writer of the table keeps. The caller's metadata dict, which `add_file` and `move_file` also rewrite in place, is given by value.
- `generate_id` re-rolls by a tail call; the model re-rolls in a loop.
- `Catalog.DataHandler.TransferFile` does not restate that the stored file keeps its source's suffix; `Catalog.StoredPathKeepsSuffix` proves it for every uuid stem.
- `Catalog.DataHandler.AddFile` does not restate that the copy keeps its source's suffix either; its contract names the copy `StoredPath(data, id, Suffix(source))`, about which `Catalog.StoredPathKeepsSuffix` proves it.
- `Catalog.DataHandler.MoveFile` and `Catalog.DataHandler.TransferFile` say that the moved file's stem and the new id are uuids, not which draws of the stream they are.
- `Ingestion.MediaDownloader.FetchAndFile` (through `Fetched`) says which draw names the download, but for a transfer only that at least two more uuids are drawn, for the same reason.
