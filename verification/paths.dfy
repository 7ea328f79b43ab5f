/**
 POSIX path-string operations used by the environment discovery:
 `os.path.join`, `os.path.dirname`, `os.path.isabs` and the non-normalising
 part of `os.path.abspath`. Paths are plain strings; nothing here touches a
 filesystem.
 */
module Paths {

  predicate IsAbs(p: string) {
    |p| > 0 && p[0] == '/'
  }

  predicate HasSlash(s: string) {
    exists i :: 0 <= i < |s| && s[i] == '/'
  }

  predicate AllSlashes(s: string) {
    forall i :: 0 <= i < |s| ==> s[i] == '/'
  }

  predicate EndsWithSlash(s: string) {
    |s| > 0 && s[|s| - 1] == '/'
  }

  /** `os.path.join(a, b)`: an absolute `b` discards `a`; otherwise a
      separator is inserted unless `a` is empty or already ends with one. */
  function Join(a: string, b: string): (r: string)
    ensures IsAbs(b) ==> r == b
    ensures |b| <= |r| && r[|r| - |b|..] == b
    ensures !IsAbs(b) ==> |a| <= |r| && r[..|a|] == a
    ensures !IsAbs(b) && a != "" && !EndsWithSlash(a) ==> |r| == |a| + 1 + |b| && r[|a|] == '/'
  {
    if IsAbs(b) then b
    else if a == "" || EndsWithSlash(a) then a + b
    else a + "/" + b
  }

  /** Joining a plain, non-empty name onto a non-empty path that does not
      end in '/' inserts exactly one separator, and the result again does
      not end in '/'. */
  lemma JoinPlainName(a: string, b: string)
    requires a != "" && !EndsWithSlash(a)
    requires b != "" && !HasSlash(b)
    ensures Join(a, b) == a + "/" + b
    ensures Join(a, b) != "" && !EndsWithSlash(Join(a, b))
  {
    assert b[|b| - 1] != '/';
  }

  /** `os.path.join(base, *parts)`: joins left to right. */
  function JoinAll(base: string, parts: seq<string>): (r: string)
    ensures |parts| > 0 ==> |parts[|parts| - 1]| <= |r| && r[|r| - |parts[|parts| - 1]|..] == parts[|parts| - 1]
    decreases |parts|
  {
    if |parts| == 0 then base
    else Join(JoinAll(base, parts[..|parts| - 1]), parts[|parts| - 1])
  }

  /** Index of the last '/' in `p`, or -1 when there is none. */
  function LastSlash(p: string): (k: int)
    ensures -1 <= k < |p|
    ensures k >= 0 ==> p[k] == '/'
    ensures forall j :: k < j < |p| ==> p[j] != '/'
  {
    if |p| == 0 then -1
    else if p[|p| - 1] == '/' then |p| - 1
    else LastSlash(p[..|p| - 1])
  }

  /** `s.rstrip('/')` */
  function RStripSlashes(s: string): (r: string)
    ensures |r| <= |s| && s[..|r|] == r
    ensures !EndsWithSlash(r)
    ensures AllSlashes(s[|r|..])
  {
    if EndsWithSlash(s) then RStripSlashes(s[..|s| - 1]) else s
  }

  /** `os.path.dirname(p)` (posixpath): everything up to the last '/', with
      trailing slashes removed unless the head consists only of slashes. */
  function Dirname(p: string): (r: string)
    ensures |r| <= |p| && p[..|r|] == r
    ensures !HasSlash(p) ==> r == ""
  {
    var head := p[..LastSlash(p) + 1];
    if AllSlashes(head) then head else RStripSlashes(head)
  }

  /** `os.path.abspath(p)` relative to the working directory `cwd`, without
      the `normpath` step (no collapsing of `.`, `..` or repeated slashes). */
  function AbsPath(cwd: string, p: string): (r: string)
    ensures IsAbs(p) ==> r == p
    ensures IsAbs(cwd) ==> IsAbs(r)
    ensures !IsAbs(p) ==> |cwd| <= |r| && r[..|cwd|] == cwd
    ensures p == "" ==> r == cwd
    ensures !IsAbs(p) ==> |p| <= |r| && r[|r| - |p|..] == p
    ensures !IsAbs(p) && p != "" && cwd != "" && !EndsWithSlash(cwd) ==> |r| == |cwd| + 1 + |p| && r[|cwd|] == '/'
    ensures !IsAbs(p) && p != "" && (cwd == "" || EndsWithSlash(cwd)) ==> |r| == |cwd| + |p|
  {
    if IsAbs(p) then p
    else if p == "" then cwd
    else Join(cwd, p)
  }

  /** Dirname undoes Join when the joined component is a plain name. */
  lemma {:induction false} DirnameOfJoin(a: string, b: string)
    requires a != "" && !EndsWithSlash(a)
    requires !HasSlash(b)
    ensures Dirname(Join(a, b)) == a
  {
    var p := Join(a, b);
    assert !IsAbs(b);
    assert p == a + "/" + b;
    assert p[|a|] == '/';
    var k := LastSlash(p);
    assert k == |a|;
    var head := p[..k + 1];
    assert head == a + "/";
    assert head[|a| - 1] != '/';
    var r := RStripSlashes(head);
    assert r == a by {
      assert RStripSlashes(head) == RStripSlashes(head[..|head| - 1]);
      assert head[..|head| - 1] == a;
    }
  }

  /** A relative `which` result such as `bin/nvcc` has an empty grandparent. */
  lemma RelativeCompilerHasEmptyRoot()
    ensures Dirname(Dirname("bin/nvcc")) == ""
  {
    DirnameOfJoin("bin", "nvcc");
    assert Join("bin", "nvcc") == "bin/nvcc";
    assert !HasSlash("bin");
  }
}
