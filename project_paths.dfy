/** `get_project`: the nearest enclosing folder with a given name, walking up
    from the folder of the running file. An absolute path is the sequence of
    its folder names; the root is the empty sequence. */
module ProjectPaths {

  /** The folder found, or the FileNotFoundError raised at the root. */
  datatype Located = Located(dir: seq<string>) | NotFound

  /** `Path.name`: the last folder name, "" for the root. */
  function FolderName(dir: seq<string>): string {
    if dir == [] then "" else dir[|dir| - 1]
  }

  /** `Path.parent`: the root is its own parent. */
  function Parent(dir: seq<string>): (p: seq<string>)
    ensures p == dir <==> dir == []
    ensures dir != [] ==> p == dir[..|dir| - 1]
  {
    if dir == [] then [] else dir[..|dir| - 1]
  }

  /** Walks up from `start` until a folder is named `name`; fails once the
      root is reached without one. */
  method GetProject(start: seq<string>, name: string) returns (r: Located)
    ensures r.Located? ==> |r.dir| <= |start| && r.dir == start[..|r.dir|] && FolderName(r.dir) == name
    ensures r.Located? ==> forall k :: |r.dir| < k <= |start| ==> FolderName(start[..k]) != name
    ensures r.NotFound? <==> forall k :: 0 <= k <= |start| ==> FolderName(start[..k]) != name
    ensures name == "" && (forall i :: 0 <= i < |start| ==> start[i] != "") ==> r == Located([])
  {
    var current := start;
    while FolderName(current) != name
      invariant |current| <= |start| && current == start[..|current|]
      invariant forall k :: |current| < k <= |start| ==> FolderName(start[..k]) != name
      decreases |current|
    {
      if Parent(current) == current {
        return NotFound;
      }
      current := Parent(current);
    }
    return Located(current);
  }
}
