/** The catalog of stored media: `DataHandler`, a table from ids to JSON
    metadata rows beside a data directory that holds one file per row. */
module Catalog {
  import opened Json
  import opened FilePaths
  import opened UuidSource

  /** The Python exceptions the catalog's operations raise. */
  datatype Error = KeyError | TypeError | ValueError | FileNotFoundError | AttributeError

  datatype Result<+T> = Ok(value: T) | Err(error: Error)

  /** What `move_file` returns: "File transferred!", or nothing after it
      reports a missing file and skips it. */
  datatype Transfer = Transferred | SkippedMissing

  /** What `delete_file` returns: "File Deleted.", or nothing for an id
      that is not stored. */
  datatype Removal = Deleted | NotStored

  const FilepathKey := "filepath"
  const Mp3 := ".mp3"

  /** `if row:` on what `search` returns: a row that exists and is not empty. */
  predicate Found(row: Option<Dict>) {
    row.Some? && row.value != map[]
  }

  /** Every stored row names its file; every writer of the table keeps this. */
  ghost predicate RowsNameFiles(files: map<string, Dict>) {
    forall id :: id in files ==> FilepathKey in files[id]
  }

  /** `str(data / f"{stem}{suffix}")`: where a file is kept in the data folder. */
  function StoredPath(data: string, stem: string, suffix: string): string {
    Join(data, stem + suffix)
  }

  /** A stored file is named after its uuid and keeps the suffix of the file
      it was made from, so its type survives the copy. */
  lemma StoredPathKeepsSuffix(data: string, stem: string, source: string)
    requires UuidText(stem)
    ensures Name(StoredPath(data, stem, Suffix(source))) == stem + Suffix(source)
    ensures Suffix(StoredPath(data, stem, Suffix(source))) == Suffix(source)
  {
    var suffix := Suffix(source);
    UuidTextIsPlain(stem);
    assert '/' !in stem + suffix by {
      assert forall c :: c in stem + suffix ==> c in stem || c in suffix;
    }
    NameOfJoin(data, stem + suffix);
    SuffixOfStemAndSuffix(StoredPath(data, stem, suffix), stem, suffix);
  }

  /** The row stored for `id` names its file by something other than a
      string, on which `Path(...)` raises TypeError. */
  predicate BadFilepath(files: map<string, Dict>, id: string) {
    id in files && FilepathKey in files[id] && !files[id][FilepathKey].Str?
  }

  /** The files of the given stored rows, as far as they name one by a string. */
  function StoredFiles(files: map<string, Dict>, ids: set<string>): (paths: set<string>)
    ensures forall id ::
      (id in ids && id in files && FilepathKey in files[id] && files[id][FilepathKey].Str?)
      ==> files[id][FilepathKey].s in paths
  {
    set id | id in ids && id in files && FilepathKey in files[id] && files[id][FilepathKey].Str?
      :: files[id][FilepathKey].s
  }

  /** The ids in a sequence, as a set. */
  function Elements(ids: seq<string>): (s: set<string>)
    ensures forall i :: 0 <= i < |ids| ==> ids[i] in s
    ensures forall id :: id in s ==> exists i :: 0 <= i < |ids| && ids[i] == id
  {
    set i | 0 <= i < |ids| :: ids[i]
  }

  /** `json_extract(metadata, '$.key') = value` for a string value. */
  predicate Matches(row: Dict, key: string, value: string) {
    key in row && row[key] == Str(value)
  }

  class DataHandler {
    /** `project_path / "data"`, the folder that holds the stored files. */
    const data: string
    const rng: Generator
    const fs: FileSystem
    /** The `files` table: metadata rows by id. */
    var files: map<string, Dict>

    ghost predicate Valid()
      reads this, rng
    {
      rng.Valid() && RowsNameFiles(files)
    }

    /** Opens the catalog of a project whose table already holds `existing`. */
    constructor (projectPath: string, rng: Generator, fs: FileSystem, existing: map<string, Dict>)
      requires rng.Valid() && RowsNameFiles(existing)
      ensures Valid()
      ensures data == Join(projectPath, "data") && this.rng == rng && this.fs == fs && files == existing
    {
      data := Join(projectPath, "data");
      this.rng := rng;
      this.fs := fs;
      files := existing;
    }

    /** The row stored under `id`, if any. */
    function Search(id: string): (row: Option<Dict>)
      reads this
      ensures row.Some? <==> id in files
      ensures row.Some? ==> row.value == files[id]
      ensures RowsNameFiles(files) ==> (Found(row) <==> id in files)
    {
      if id in files then Some(files[id]) else None
    }

    /** Draws uuids until one is not a stored id. */
    method GenerateId() returns (id: string)
      requires Valid()
      modifies rng
      ensures Valid()
      ensures UuidText(id) && id !in files
      ensures old(rng.drawn) < rng.drawn && id == rng.draw[rng.drawn - 1]
      ensures forall k :: old(rng.drawn) <= k < rng.drawn - 1 ==> rng.draw[k] in files
    {
      ghost var taken := files;
      assert FreshFrom(rng.draw, taken.Keys, rng.drawn);
      ghost var unused: nat :| rng.drawn <= unused && rng.draw[unused] !in taken;
      id := rng.Uuid4();
      while Found(Search(id))
        invariant rng.Valid() && files == taken
        invariant old(rng.drawn) < rng.drawn <= unused + 1
        invariant id == rng.draw[rng.drawn - 1]
        invariant forall k :: old(rng.drawn) <= k < rng.drawn - 1 ==> rng.draw[k] in taken
        decreases unused + 1 - rng.drawn
      {
        assert id in taken && rng.drawn <= unused;
        id := rng.Uuid4();
      }
    }

    /** Copies the file a row names into the data folder under a new id and
        stores the row, now naming the copy. */
    method AddFile(metadata: Dict) returns (r: Result<string>)
      requires Valid()
      modifies this, rng, fs
      ensures Valid()
      ensures r == Err(KeyError) <==> !(FilepathKey in metadata && Truthy(metadata[FilepathKey]))
      ensures r == Err(KeyError) ==> rng.drawn == old(rng.drawn)
      ensures r == Err(TypeError) <==>
        FilepathKey in metadata && Truthy(metadata[FilepathKey]) && !metadata[FilepathKey].Str?
      ensures r == Err(FileNotFoundError) <==>
        FilepathKey in metadata && metadata[FilepathKey].Str? && metadata[FilepathKey].s != ""
        && metadata[FilepathKey].s !in old(fs.files)
      ensures r.Err? ==> files == old(files) && fs.files == old(fs.files)
      ensures r.Ok? ==>
        FilepathKey in metadata && metadata[FilepathKey].Str? &&
        var source := metadata[FilepathKey].s;
        var stored := StoredPath(data, r.value, Suffix(source));
        && source in old(fs.files)
        && UuidText(r.value) && r.value !in old(files)
        && files == old(files)[r.value := metadata[FilepathKey := Str(stored)]]
        && fs.files == old(fs.files) + {stored}
    {
      if FilepathKey !in metadata || !Truthy(metadata[FilepathKey]) {
        return Err(KeyError);
      }
      var id := GenerateId();
      var original := metadata[FilepathKey];
      if !original.Str? {
        return Err(TypeError);
      }
      if original.s !in fs.files {
        return Err(FileNotFoundError);
      }
      var newFile := StoredPath(data, id, Suffix(original.s));
      fs.files := fs.files + {newFile};
      files := files[id := metadata[FilepathKey := Str(newFile)]];
      return Ok(id);
    }

    /** Moves a downloaded file into the data folder under a fresh uuid,
        trying the ".mp3" conversion of a missing file, and stores the row
        under a new id. */
    method MoveFile(metadata: Dict) returns (r: Result<Transfer>)
      requires Valid()
      modifies this, rng, fs
      ensures Valid()
      ensures r.Err? ==> r.error == KeyError || r.error == TypeError || r.error == ValueError
      ensures r == Err(KeyError) <==> FilepathKey !in metadata
      ensures r == Err(TypeError) <==> FilepathKey in metadata && !metadata[FilepathKey].Str?
      ensures FilepathKey in metadata && metadata[FilepathKey].Str? ==>
        var pick := PickSource(metadata[FilepathKey].s, old(fs.files));
        && (r == Err(ValueError) <==> pick == Nameless)
        && (r == Ok(SkippedMissing) <==> pick == Missing)
        && (r == Ok(Transferred) <==> pick.Use?)
      ensures r != Ok(Transferred) ==>
        files == old(files) && fs.files == old(fs.files) && rng.drawn == old(rng.drawn)
      ensures r == Ok(Transferred) ==>
        FilepathKey in metadata && metadata[FilepathKey].Str? &&
        PickSource(metadata[FilepathKey].s, old(fs.files)).Use? &&
        old(rng.drawn) + 1 < rng.drawn &&
        Moved(old(files), old(fs.files), files, fs.files, data,
              metadata, PickSource(metadata[FilepathKey].s, old(fs.files)).path)
      ensures r == Ok(Transferred) ==> RowAdded(old(files), files, metadata)
    {
      if FilepathKey !in metadata {
        return Err(KeyError);
      }
      var given := metadata[FilepathKey];
      if !given.Str? {
        return Err(TypeError);
      }
      var pick := PickSource(given.s, fs.files);
      if pick == Nameless {
        return Err(ValueError);
      } else if pick == Missing {
        return Ok(SkippedMissing);
      }
      TransferFile(metadata, pick.path);
      return Ok(Transferred);
    }

    /** The second half of `move_file`: moves an existing file into the data
        folder under a fresh uuid and stores the row under a new id. */
    method TransferFile(metadata: Dict, source: string)
      requires Valid() && source in fs.files
      modifies this, rng, fs
      ensures Valid()
      ensures old(rng.drawn) + 1 < rng.drawn
      ensures Moved(old(files), old(fs.files), files, fs.files, data, metadata, source)
      ensures RowAdded(old(files), files, metadata)
    {
      var stem := rng.Uuid4();
      var newFile := StoredPath(data, stem, Suffix(source));
      fs.files := fs.files - {source} + {newFile};
      var id := GenerateId();
      files := files[id := metadata[FilepathKey := Str(newFile)]];
      assert MovedInto(old(files), old(fs.files), files, fs.files, data, stem, id, metadata, source);
      MovedIntoAddsRow(old(files), old(fs.files), files, fs.files, data, stem, id, metadata, source);
    }

    /** Removes a stored row and, if it is still there, its file. */
    method DeleteFile(id: string) returns (r: Result<Removal>)
      requires Valid()
      modifies this, fs
      ensures Valid()
      ensures r == Ok(NotStored) <==> id !in old(files)
      ensures r == Err(TypeError) <==> BadFilepath(old(files), id)
      ensures r.Ok? || r == Err(TypeError)
      ensures r != Ok(Deleted) ==> files == old(files) && fs.files == old(fs.files)
      ensures r == Ok(Deleted) ==>
        && files == old(files) - {id}
        && fs.files == old(fs.files) - StoredFiles(old(files), {id})
    {
      var row := Search(id);
      if !Found(row) {
        return Ok(NotStored);
      }
      var path := row.value[FilepathKey];
      if !path.Str? {
        return Err(TypeError);
      }
      assert StoredFiles(files, {id}) == {path.s};
      if path.s in fs.files {
        fs.files := fs.files - {path.s};
      }
      files := files - {id};
      return Ok(Deleted);
    }

    /** Deletes the given ids in order; the first row whose file path is not
        a string stops it with TypeError. */
    method DeleteFiles(ids: seq<string>) returns (r: Result<()>)
      requires Valid()
      modifies this, fs
      ensures Valid()
      ensures r.Ok? <==> forall i :: 0 <= i < |ids| ==> !BadFilepath(old(files), ids[i])
      ensures r.Ok? ==>
        && files == old(files) - Elements(ids)
        && fs.files == old(fs.files) - StoredFiles(old(files), Elements(ids))
      ensures r.Err? ==> r.error == TypeError
      ensures r.Err? ==> exists j :: FailedAt(old(files), old(fs.files), files, fs.files, ids, j)
    {
      for i := 0 to |ids|
        invariant Valid()
        invariant forall k :: 0 <= k < i ==> !BadFilepath(old(files), ids[k])
        invariant files == old(files) - Elements(ids[..i])
        invariant fs.files == old(fs.files) - StoredFiles(old(files), Elements(ids[..i]))
      {
        ghost var filesBefore, diskBefore := files, fs.files;
        var step := DeleteFile(ids[i]);
        if step.Err? {
          assert FailedAt(old(files), old(fs.files), files, fs.files, ids, i);
          return Err(step.error);
        }
        if step.value == NotStored {
          assert ids[i] !in filesBefore;
        }
        DeletedOneMore(old(files), old(fs.files), ids, i, filesBefore, diskBefore, files, fs.files);
      }
      assert ids[..|ids|] == ids;
      return Ok(());
    }

    /** `list_matching_pairs(key, value)`: the rows whose `key` holds the
        string `value`. */
    function ListMatchingPairs(key: string, value: string): (matching: map<string, Dict>)
      reads this
      ensures forall id :: id in matching <==> id in files && Matches(files[id], key, value)
      ensures forall id :: id in matching ==> matching[id] == files[id]
    {
      map id | id in files && Matches(files[id], key, value) :: files[id]
    }

    /** `list_all_files()`: every row. */
    function ListAllFiles(): (all: map<string, Dict>)
      reads this
      ensures forall id :: id in all <==> Search(id).Some?
      ensures forall id :: id in all ==> Some(all[id]) == Search(id)
    {
      files
    }

    /** Merges new keys into a stored row and returns the merged row. */
    method UpdateMetadata(id: string, newMetadata: Dict) returns (r: Result<Dict>)
      requires Valid()
      modifies this
      ensures Valid()
      ensures r.Err? <==> id !in old(files)
      ensures r.Err? ==> r.error == KeyError && files == old(files)
      ensures r.Ok? ==>
        && r.value == Merged(old(files)[id], newMetadata)
        && files == old(files)[id := r.value]
    {
      var existing := Search(id);
      if !Found(existing) {
        return Err(KeyError);
      }
      var merged := Merged(existing.value, newMetadata);
      files := files[id := merged];
      return Ok(merged);
    }

    /** Merges new keys into a stored row by way of `UpdateMetadata`; an
        unknown id fails on `None.update`. */
    method AddMetadata(id: string, newData: Dict) returns (r: Result<()>)
      requires Valid()
      modifies this
      ensures Valid()
      ensures r.Err? <==> id !in old(files)
      ensures r.Err? ==> r.error == AttributeError && files == old(files)
      ensures r.Ok? ==> files == old(files)[id := Merged(old(files)[id], newData)]
    {
      var metadata := Search(id);
      if metadata.None? {
        return Err(AttributeError);
      }
      var merged := Merged(metadata.value, newData);
      MergeAbsorbs(metadata.value, newData);
      var u := UpdateMetadata(id, merged);
      assert u.Ok?;
      return Ok(());
    }
  }

  /** Which file `move_file` moves for the path a row gives. */
  datatype Pick =
    | Use(path: string)  // the path itself, or its ".mp3" conversion
    | Missing            // neither exists: the row is skipped
    | Nameless           // `with_suffix` raises ValueError on a path without a name

  /** The path if it exists, else its ".mp3" conversion if that exists. */
  function PickSource(given: string, disk: set<string>): (pick: Pick)
    ensures pick.Use? <==> given in disk || (Name(given) != "" && WithSuffix(given, Mp3) in disk)
    ensures pick.Use? ==> pick.path in disk
    ensures pick.Use? && pick.path != given ==> given !in disk && pick.path == WithSuffix(given, Mp3)
    ensures pick == Nameless <==> given !in disk && Name(given) == ""
  {
    if given in disk then Use(given)
    else if Name(given) == "" then Nameless
    else if WithSuffix(given, Mp3) in disk then Use(WithSuffix(given, Mp3))
    else Missing
  }

  /** The fallback `move_file` picks for a missing file is an ".mp3" file. */
  lemma FallbackIsMp3(given: string, disk: set<string>)
    requires PickSource(given, disk).Use? && PickSource(given, disk).path != given
    ensures Suffix(PickSource(given, disk).path) == Mp3
  {
    WithSuffixMp3(given);
  }

  /** The outcome of a transfer of `source`: the file moved into the data
      folder under the uuid `stem` (so it keeps its suffix, by
      `StoredPathKeepsSuffix`), and the row, now naming it, was stored under
      the new id `id`. */
  ghost predicate MovedInto(files: map<string, Dict>, disk: set<string>,
                            filesAfter: map<string, Dict>, diskAfter: set<string>,
                            data: string, stem: string, id: string, metadata: Dict, source: string)
  {
    var stored := StoredPath(data, stem, Suffix(source));
    && UuidText(stem) && UuidText(id) && id !in files
    && filesAfter == files[id := metadata[FilepathKey := Str(stored)]]
    && diskAfter == disk - {source} + {stored}
  }

  /** `after` is `files` with one more row under a new id: `metadata`
      pointing at some stored file. */
  ghost predicate RowAdded(files: map<string, Dict>, after: map<string, Dict>, metadata: Dict) {
    exists id, stored :: id !in files && after == files[id := metadata[FilepathKey := Str(stored)]]
  }

  /** A transfer of `source` under some uuid stem and some new id. */
  ghost predicate Moved(files: map<string, Dict>, disk: set<string>,
                        filesAfter: map<string, Dict>, diskAfter: set<string>,
                        data: string, metadata: Dict, source: string)
  {
    exists stem, id :: MovedInto(files, disk, filesAfter, diskAfter, data, stem, id, metadata, source)
  }

  /** A transfer adds exactly one row, under an id that was not stored. */
  lemma MovedIntoAddsRow(files: map<string, Dict>, disk: set<string>,
                         filesAfter: map<string, Dict>, diskAfter: set<string>,
                         data: string, stem: string, id: string, metadata: Dict, source: string)
    requires MovedInto(files, disk, filesAfter, diskAfter, data, stem, id, metadata, source)
    ensures RowAdded(files, filesAfter, metadata)
  {
    var stored := StoredPath(data, stem, Suffix(source));
    assert id !in files && filesAfter == files[id := metadata[FilepathKey := Str(stored)]];
  }

  /** `DeleteFiles` stopped at `ids[j]`, the first id with a bad file path,
      after deleting the ids before it. */
  ghost predicate FailedAt(files: map<string, Dict>, disk: set<string>,
                           filesAfter: map<string, Dict>, diskAfter: set<string>,
                           ids: seq<string>, j: int)
  {
    && 0 <= j < |ids| && BadFilepath(files, ids[j])
    && (forall i :: 0 <= i < j ==> !BadFilepath(files, ids[i]))
    && filesAfter == files - Elements(ids[..j])
    && diskAfter == disk - StoredFiles(files, Elements(ids[..j]))
  }

  /** One more deletion in `DeleteFiles`, of a stored row or of an id that
      is not (any more) stored, extends the deleted prefix by one. */
  lemma DeletedOneMore(files: map<string, Dict>, disk: set<string>, ids: seq<string>, i: nat,
                       filesBefore: map<string, Dict>, diskBefore: set<string>,
                       filesAfter: map<string, Dict>, diskAfter: set<string>)
    requires i < |ids|
    requires filesBefore == files - Elements(ids[..i])
    requires diskBefore == disk - StoredFiles(files, Elements(ids[..i]))
    requires || (ids[i] !in filesBefore && filesAfter == filesBefore && diskAfter == diskBefore)
             || (filesAfter == filesBefore - {ids[i]} && diskAfter == diskBefore - StoredFiles(filesBefore, {ids[i]}))
    ensures filesAfter == files - Elements(ids[..i + 1])
    ensures diskAfter == disk - StoredFiles(files, Elements(ids[..i + 1]))
  {
    assert ids[..i + 1] == ids[..i] + [ids[i]];
    var done := Elements(ids[..i]);
    assert Elements(ids[..i + 1]) == done + {ids[i]};
    assert StoredFiles(files, done + {ids[i]}) == StoredFiles(files, done) + StoredFiles(files, {ids[i]});
    if ids[i] in filesBefore {
      assert StoredFiles(filesBefore, {ids[i]}) == StoredFiles(files, {ids[i]});
    } else if ids[i] in files {
      assert ids[i] in done;
      assert StoredFiles(files, {ids[i]}) <= StoredFiles(files, done);
    } else {
      assert StoredFiles(files, {ids[i]}) == {};
    }
  }
}
