/** Path names, as far as the data mover takes them apart and puts them together. */
module Paths {
  import opened Posix

  /** The number of characters up to and including the last '/'. */
  function AfterSlash(p: Path): (n: nat)
    ensures n <= |p|
    ensures forall i :: n <= i < |p| ==> p[i] != '/'
    ensures n > 0 ==> p[n - 1] == '/'
  {
    if p == [] then 0
    else if p[|p| - 1] == '/' then |p|
    else AfterSlash(p[..|p| - 1])
  }

  /** The last component of a path. */
  function Filename(p: Path): (f: Path)
    ensures '/' !in f
  {
    p[AfterSlash(p)..]
  }

  function DirName(p: Path): Path {
    if AfterSlash(p) == 0 then [] else p[..AfterSlash(p) - 1]
  }

  /** The file a copy of `p` into the directory `dir` is written to. */
  function CopyName(dir: Path, p: Path): Path {
    dir + "/" + Filename(p)
  }

  predicate Under(root: Path, p: Path) {
    root + "/" <= p
  }

  /** A name mkdtemp() may make from the template: the root and a component of six characters. */
  predicate TempDir(root: Path, dir: Path) {
    Under(root, dir) && |dir| == |root| + 7 && '/' !in dir[|root| + 1..]
  }

  lemma AfterSlashUnique(p: Path, n: nat)
    requires 0 < n <= |p| && p[n - 1] == '/'
    requires forall i :: n <= i < |p| ==> p[i] != '/'
    ensures AfterSlash(p) == n
  {
  }

  /** The last component is what stands behind the last slash, or the whole path. */
  lemma FilenameLaw(d: Path, f: Path)
    requires '/' !in f
    ensures Filename(d + "/" + f) == f && Filename(f) == f
    ensures DirName(d + "/" + f) == d
  {
    var p := d + "/" + f;
    AfterSlashUnique(p, |d| + 1);
    assert p[|d| + 1..] == f && p[..|d|] == d;
    AfterSlashNone(f);
  }

  lemma AfterSlashNone(f: Path)
    requires '/' !in f
    ensures AfterSlash(f) == 0
  {
  }

  /** A copy of `d/f` is called `dir/f`. */
  lemma CopyNameLaw(dir: Path, d: Path, f: Path)
    requires '/' !in f
    ensures CopyName(dir, d + "/" + f) == dir + "/" + f
  {
    FilenameLaw(d, f);
  }

  /** The directory of a copy can be read off its name, so copies in different directories differ. */
  lemma CopyNameInjective(dir: Path, p: Path)
    ensures DirName(CopyName(dir, p)) == dir
    ensures Filename(CopyName(dir, p)) == Filename(p)
  {
    var f := CopyName(dir, p);
    AfterSlashUnique(f, |dir| + 1);
    assert f[..|dir|] == dir;
    assert f[|dir| + 1..] == Filename(p);
  }

  lemma CopyUnder(root: Path, dir: Path, p: Path)
    requires Under(root, dir)
    ensures Under(root, CopyName(dir, p))
  {
    assert CopyName(dir, p)[..|dir|] == dir;
    assert CopyName(dir, p)[..|root| + 1] == dir[..|root| + 1];
  }
}
