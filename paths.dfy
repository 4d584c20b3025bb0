/** The two QString operations the kit uses to find its sample directory. */
module Paths {

  /** QString::lastIndexOf for one character: the index of the last `c` in `s`, or -1. */
  function LastIndexOf(s: string, c: char): (r: int)
    ensures -1 <= r < |s|
    ensures r == -1 <==> c !in s
    ensures r >= 0 ==> s[r] == c && c !in s[r + 1..]
  {
    if |s| == 0 then -1
    else if s[|s| - 1] == c then |s| - 1
    else
      var r := LastIndexOf(s[..|s| - 1], c);
      assert s == s[..|s| - 1] + [s[|s| - 1]];
      assert r >= 0 ==> s[r + 1..] == s[..|s| - 1][r + 1..] + [s[|s| - 1]];
      r
  }

  /** QString::left: the first `n` characters, or all of `s` when `n` is negative or at least |s|. */
  function Left(s: string, n: int): (r: string)
    ensures r <= s
  {
    if n < 0 || n >= |s| then s else s[..n]
  }

  /**
   * `path.left(path.lastIndexOf("/"))`: the directory holding the kit's document.
   * A path without a separator is its own base directory.
   */
  function BaseDir(path: string): (dir: string)
    ensures '/' !in path ==> dir == path
    ensures '/' in path ==>
      |dir| < |path| && dir == path[..|dir|] && path[|dir|] == '/' && '/' !in path[|dir| + 1..]
  {
    Left(path, LastIndexOf(path, '/'))
  }

  /** The base directory of a file named directly inside `dir` is `dir`. */
  lemma BaseDirOfJoin(dir: string, file: string)
    requires '/' !in file
    ensures BaseDir(dir + "/" + file) == dir
  {
    var p := dir + "/" + file;
    assert p[|dir|] == '/';
    assert p[|dir| + 1..] == file;
    var b := BaseDir(p);
    assert forall j :: |dir| < j < |p| ==> p[j] == file[j - |dir| - 1];
    assert forall j :: |b| < j < |p| ==> p[j] == p[|b| + 1..][j - |b| - 1];
    assert b == p[..|dir|] == dir;
  }
}
