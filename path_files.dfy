/** The file pattern used to find the input files of a run. */
module PathFiles {
  import opened Wrappers

  /** The extension of input files when none is given. */
  const DefaultFilter: string := "in"

  predicate EndsWithSlash(path: string)
  {
    |path| > 0 && path[|path| - 1] == '/'
  }

  /**
   * The glob pattern built by `get_path_files`: for a directory, the path
   * with one '/' appended unless it already ends in one, then "*." and the
   * extension; nothing for a path that is not a directory. A directory path
   * is never empty.
   */
  function GlobPattern(path: string, isDir: bool, filter: string := DefaultFilter): (r: Option<string>)
    requires isDir ==> |path| > 0
    ensures r.Some? <==> isDir
    ensures r.Some? ==>
              |r.value| >= |filter| + 2 &&
              r.value[|r.value| - |filter| - 2..] == "*." + filter &&
              var dir := r.value[..|r.value| - |filter| - 2];
              EndsWithSlash(dir) && path <= dir && |dir| <= |path| + 1
  {
    if isDir then
      var slash := if path[|path| - 1] != '/' then "/" else "";
      Some(path + slash + "*." + filter)
    else
      None
  }

  /** A directory named with or without its trailing '/' gives the same pattern. */
  lemma TrailingSlashIrrelevant(path: string, filter: string)
    requires |path| > 0 && !EndsWithSlash(path)
    ensures GlobPattern(path + "/", true, filter) == GlobPattern(path, true, filter)
  {
    var p := path + "/";
    assert p[|p| - 1] == '/';
    assert p + "" + "*." + filter == path + "/" + "*." + filter;
  }

  /** The pattern never doubles a '/' that the path already ends with. */
  lemma NoDoubledSlash(path: string, filter: string)
    requires EndsWithSlash(path)
    ensures GlobPattern(path, true, filter) == Some(path + "*." + filter)
  {
    assert path + "" == path;
  }
}
