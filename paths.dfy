/**
 * The two `path` helpers the builder relies on, on POSIX paths:
 * `path.join` of two segments and `path.parse(p).name`.
 * Normalisation of `.`, `..` and repeated separators is not modelled.
 */
module Paths {

  /** `path.join(a, b)`: empty segments are dropped, the others are joined with `/`. */
  function Join(a: string, b: string): (r: string)
    ensures |r| == |a| + |b| + (if a != "" && b != "" then 1 else 0)
    ensures r[..|a|] == a && r[|r| - |b|..] == b
    ensures a != "" && b != "" ==> r[|a|] == '/'
    ensures a == "" ==> r == b
    ensures b == "" ==> r == a
  {
    if a == "" then b
    else if b == "" then a
    else a + "/" + b
  }

  /** The final segment of `p`: everything after its last `/`. */
  function BaseName(p: string): (r: string)
    ensures '/' !in r
  {
    if p == [] then []
    else if p[|p| - 1] == '/' then []
    else BaseName(p[..|p| - 1]) + [p[|p| - 1]]
  }

  /** Index of the last occurrence of `c` in `s`, or -1 when there is none. */
  function LastIndexOf(s: string, c: char): (k: int)
    ensures -1 <= k < |s|
    ensures k == -1 <==> c !in s
    ensures k >= 0 ==> s[k] == c && c !in s[k + 1..]
  {
    if s == [] then -1
    else if s[|s| - 1] == c then |s| - 1
    else
      var k := LastIndexOf(s[..|s| - 1], c);
      assert s[k + 1..] == s[..|s| - 1][k + 1..] + [s[|s| - 1]];
      k
  }

  /**
   * `path.parse(p).name`: the base name without its extension. The extension
   * starts at the last `.` of the base name, unless that dot is its first
   * character (a dot file such as `.eslintrc` has no extension) or the base
   * name is `..`.
   */
  function ParseName(p: string): (r: string)
    ensures '/' !in r
  {
    var base := BaseName(p);
    var dot := LastIndexOf(base, '.');
    if dot > 0 && base != ".." then base[..dot] else base
  }

  /** A name without separators is its own base name, whatever directory precedes it. */
  lemma {:induction false} BaseNameOfSuffix(dir: string, file: string)
    requires '/' !in file
    requires dir == "" || dir[|dir| - 1] == '/'
    ensures BaseName(dir + file) == file
  {
    var p := dir + file;
    if file == [] {
      assert p == dir;
    } else {
      var init := file[..|file| - 1];
      assert p[..|p| - 1] == dir + init;
      assert file[|file| - 1] in file;
      BaseNameOfSuffix(dir, init);
      assert file == init + [file[|file| - 1]];
    }
  }

  /** The base name of a file joined onto a directory is the file name. */
  lemma BaseNameOfJoin(dir: string, file: string)
    requires file != "" && '/' !in file
    ensures BaseName(Join(dir, file)) == file
  {
    if dir == "" {
      BaseNameOfSuffix("", file);
      assert "" + file == file;
    } else {
      BaseNameOfSuffix(dir + "/", file);
    }
  }

  /** A character that occurs at `i` and never after it is last at `i`. */
  lemma LastIndexOfAt(s: string, c: char, i: nat)
    requires i < |s| && s[i] == c && c !in s[i + 1..]
    ensures LastIndexOf(s, c) == i
  {
  }

  /** Round trip: `path.parse(dir/stem.ext).name` is the stem. */
  lemma ParseNameOfFile(dir: string, stem: string, ext: string)
    requires stem != "" && '/' !in stem && '/' !in ext && '.' !in ext
    requires stem + "." + ext != ".."
    ensures ParseName(Join(dir, stem + "." + ext)) == stem
  {
    var file := stem + "." + ext;
    assert file == stem + ("." + ext);
    BaseNameOfJoin(dir, file);
    assert file[|stem| + 1..] == ext;
    LastIndexOfAt(file, '.', |stem|);
    assert file[..|stem|] == stem;
  }
}
