/** Slash-separated path strings, as `pathlib.Path` joins them. */
module Paths {

  type Path = string

  /** `dir / name` for one path component. */
  function Join(dir: Path, name: string): Path
  {
    dir + "/" + name
  }

  /** A single path component: not empty and free of separators. */
  predicate IsComponent(name: string)
  {
    name != [] && '/' !in name
  }

  /** `p` lies in the tree rooted at `d`: it is `d` itself or somewhere below it. */
  predicate Within(p: Path, d: Path)
  {
    p == d || d + "/" <= p
  }

  /** `p` is an immediate entry of `dir`, as `dir.iterdir()` lists them. */
  predicate IsChild(dir: Path, p: Path)
  {
    |dir| + 1 < |p| && p[..|dir| + 1] == dir + "/" && '/' !in p[|dir| + 1..]
  }

  /** Joining a component onto a directory names one of its immediate entries. */
  lemma JoinIsChild(dir: Path, name: string)
    requires IsComponent(name)
    ensures IsChild(dir, Join(dir, name))
    ensures Join(dir, name)[|dir| + 1..] == name
  {
    var p := Join(dir, name);
    assert p[..|dir| + 1] == dir + "/";
    assert p[|dir| + 1..] == name;
  }

  /** Every immediate entry of `dir` is `dir` joined with its last component. */
  lemma ChildIsJoin(dir: Path, p: Path)
    requires IsChild(dir, p)
    ensures IsComponent(p[|dir| + 1..]) && p == Join(dir, p[|dir| + 1..])
  {
    assert p == p[..|dir| + 1] + p[|dir| + 1..];
  }

  /** Everything in the tree of an immediate entry of `dir` lies strictly below `dir`. */
  lemma WithinChildIsBelow(dir: Path, d: Path, p: Path)
    requires IsChild(dir, d) && Within(p, d)
    ensures dir + "/" <= p
  {
    assert d[..|dir| + 1] == dir + "/";
    assert p[..|dir| + 1] == d[..|dir| + 1];
  }

  /** An entry strictly below an immediate entry `d` of `dir` has a separator after `dir/`. */
  lemma BelowChildHasSeparator(dir: Path, d: Path, p: Path)
    requires IsChild(dir, d) && d + "/" <= p
    ensures |dir| + 1 <= |p| && '/' in p[|dir| + 1..]
  {
    assert p[|dir| + 1..][|d| - |dir| - 1] == p[|d|] == '/';
  }

  /** Two immediate entries of one directory never lie in each other's tree. */
  lemma ChildrenDisjoint(dir: Path, c: Path, d: Path)
    requires IsChild(dir, c) && IsChild(dir, d) && Within(c, d)
    ensures c == d
  {
    if c != d {
      BelowChildHasSeparator(dir, d, c);
    }
  }
}
