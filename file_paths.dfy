/** Paths as the catalog uses them: `pathlib` names and suffixes on
    normalised path strings ('/'-separated, no trailing '/', no "." or ".."
    components), and the set of files that exist. */
module FilePaths {

  /** `s.rfind(c)`: the index of the last `c` in `s`, or -1 if there is none. */
  function LastIndexOf(s: string, c: char): (i: int)
    ensures -1 <= i < |s|
    ensures i >= 0 ==> s[i] == c
    ensures forall j :: i < j < |s| ==> s[j] != c
  {
    if s == [] then -1
    else if s[|s| - 1] == c then |s| - 1
    else LastIndexOf(s[..|s| - 1], c)
  }

  /** The three facts above pin `rfind` down. */
  lemma LastIndexOfUnique(s: string, c: char, i: int)
    requires -1 <= i < |s|
    requires i >= 0 ==> s[i] == c
    requires forall j :: i < j < |s| ==> s[j] != c
    ensures LastIndexOf(s, c) == i
  {
  }

  /** `PurePath(path).name`: the text after the last '/'. */
  function Name(path: string): (name: string)
    ensures '/' !in name
    ensures |name| <= |path| && path[|path| - |name|..] == name
  {
    path[LastIndexOf(path, '/') + 1..]
  }

  /** What `PurePath.suffix` can be: empty, or a dot followed by at least
      one character, with no further dot and no '/'. */
  predicate SuffixText(s: string) {
    s == "" || (|s| >= 2 && s[0] == '.' && '.' !in s[1..] && '/' !in s)
  }

  /** `PurePath(path).suffix`: the name from its last '.', provided that dot
      is neither the first nor the last character of the name. */
  function Suffix(path: string): (suffix: string)
    ensures SuffixText(suffix)
    ensures |suffix| <= |Name(path)| && Name(path)[|Name(path)| - |suffix|..] == suffix
    ensures suffix != "" ==> |suffix| < |Name(path)|
  {
    var name := Name(path);
    var i := LastIndexOf(name, '.');
    if 0 < i < |name| - 1 then name[i..] else ""
  }

  /** `PurePath(path).with_suffix(suffix)`: the name's suffix, if any,
      replaced by `suffix`; pathlib raises ValueError for an empty name. */
  function WithSuffix(path: string, suffix: string): string
    requires Name(path) != ""
  {
    path[..|path| - |Suffix(path)|] + suffix
  }

  /** `str(PurePath(dir) / name)` */
  function Join(dir: string, name: string): string {
    dir + "/" + name
  }

  /** Text without '/' appended to a path lengthens its name. */
  lemma NameOfAppend(path: string, tail: string)
    requires '/' !in tail
    ensures Name(path + tail) == Name(path) + tail
  {
    var s := path + tail;
    var i := LastIndexOf(path, '/');
    forall j | i < j < |s| ensures s[j] != '/' {
      if j >= |path| {
        assert s[j] == tail[j - |path|];
      }
    }
    LastIndexOfUnique(s, '/', i);
    assert s[i + 1..] == path[i + 1..] + tail;
  }

  /** The name of `dir / name` is `name`. */
  lemma NameOfJoin(dir: string, name: string)
    requires '/' !in name
    ensures Name(Join(dir, name)) == name
  {
    var d := dir + "/";
    LastIndexOfUnique(d, '/', |dir|);
    assert Name(d) == "";
    NameOfAppend(d, name);
    assert Join(dir, name) == d + name;
  }

  /** `(dir / name).parent == dir`: the folder part of a joined path, what
      comes before its name and the '/' in front of it, is `dir`. */
  lemma ParentOfJoin(dir: string, name: string)
    requires '/' !in name
    ensures var p := Join(dir, name); |Name(p)| < |p| && p[..|p| - |Name(p)| - 1] == dir
  {
    NameOfJoin(dir, name);
    var p := Join(dir, name);
    assert p[..|dir|] == dir;
  }

  /** A name made of a non-empty stem and a suffix has that suffix, provided
      a stem without a suffix has no dot of its own. */
  lemma SuffixOfStemAndSuffix(path: string, stem: string, suffix: string)
    requires stem != "" && SuffixText(suffix)
    requires suffix == "" ==> '.' !in stem
    requires Name(path) == stem + suffix
    ensures Suffix(path) == suffix
  {
    var name := stem + suffix;
    if suffix == "" {
      assert name == stem;
      LastIndexOfUnique(name, '.', -1);
    } else {
      forall j | |stem| < j < |name| ensures name[j] != '.' {
        assert name[j] == suffix[1..][j - |stem| - 1];
      }
      LastIndexOfUnique(name, '.', |stem|);
      assert name[|stem|..] == suffix;
    }
  }

  /** A path is its stem part followed by its suffix, and a path with a name
      keeps a non-empty name once the suffix is cut off. */
  lemma SplitSuffix(path: string)
    requires Name(path) != ""
    ensures path == path[..|path| - |Suffix(path)|] + Suffix(path)
    ensures Name(path[..|path| - |Suffix(path)|]) != ""
  {
    var suffix := Suffix(path);
    var name := Name(path);
    var stemPath := path[..|path| - |suffix|];
    assert path[|path| - |suffix|..] == suffix by {
      assert name[|name| - |suffix|..] == suffix;
      assert path[|path| - |name|..] == name;
    }
    assert path == stemPath + suffix;
    NameOfAppend(stemPath, suffix);
  }

  /** Cutting the suffix off a path cuts it off the name. */
  lemma NameOfStem(path: string)
    requires Name(path) != ""
    ensures var name := Name(path);
            Name(path[..|path| - |Suffix(path)|]) == name[..|name| - |Suffix(path)|]
  {
    SplitSuffix(path);
    NameOfAppend(path[..|path| - |Suffix(path)|], Suffix(path));
  }

  /** `with_suffix` keeps the stem: the new name is the old name without
      its suffix, followed by the new suffix. */
  lemma WithSuffixKeepsStem(path: string, suffix: string)
    requires Name(path) != "" && '/' !in suffix
    ensures var name := Name(path);
            Name(WithSuffix(path, suffix)) == name[..|name| - |Suffix(path)|] + suffix
  {
    var stemPath := path[..|path| - |Suffix(path)|];
    assert WithSuffix(path, suffix) == stemPath + suffix;
    NameOfStem(path);
    NameOfAppend(stemPath, suffix);
  }

  /** `path.with_suffix(".mp3").suffix == ".mp3"`: the fallback the catalog
      tries is a file with the ".mp3" suffix. */
  lemma WithSuffixMp3(path: string)
    requires Name(path) != ""
    ensures Suffix(WithSuffix(path, ".mp3")) == ".mp3"
  {
    var mp3 := ".mp3";
    assert SuffixText(mp3) by {
      assert mp3[1..] == "mp3";
    }
    SplitSuffix(path);
    var stemPath := path[..|path| - |Suffix(path)|];
    var result := stemPath + mp3;
    assert WithSuffix(path, mp3) == result;
    NameOfAppend(stemPath, mp3);
    SuffixOfStemAndSuffix(result, Name(stemPath), mp3);
  }

  /** The files that exist, by path. */
  class FileSystem {
    var files: set<string>

    constructor (files: set<string>)
      ensures this.files == files
    {
      this.files := files;
    }
  }
}
