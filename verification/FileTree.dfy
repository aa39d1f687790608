// The file tree of a repository, with directories kept apart from files so that an
// empty directory left behind by deletions is visible to the next promotion.
module FileTree {
  import opened Basics

  type Path = string

  /** A regular file: its bytes stand for their digest. */
  datatype Image = Image(content: string, mode: nat)

  datatype Tree = Tree(files: map<Path, Image>, dirs: set<Path>)

  /** `p` is a proper ancestor directory of `q`. */
  predicate Above(p: Path, q: Path) {
    p + "/" <= q
  }

  function Ancestors(q: Path): (r: set<Path>)
    ensures forall p :: p in r <==> Above(p, q)
  {
    var r := set i | 0 <= i < |q| && q[i] == '/' :: q[..i];
    assert forall p :: p in r ==> Above(p, q);
    assert forall p :: Above(p, q) ==> q[|p|] == '/' && q[..|p|] == p;
    r
  }

  lemma AboveTransitive(p: Path, q: Path, r: Path)
    requires Above(p, q) && Above(q, r)
    ensures Above(p, r)
  {
    assert r[..|q|] == q;
    assert q[..|p| + 1] == p + "/";
    assert r[..|p| + 1] == q[..|p| + 1];
  }

  /** No path is both a file and a directory, and every parent is a directory. */
  ghost predicate WellFormed(t: Tree) {
    && t.files.Keys !! t.dirs
    && (forall p, q :: q in t.files && Above(p, q) ==> p in t.dirs)
    && (forall p, q :: q in t.dirs && Above(p, q) ==> p in t.dirs)
  }

  /** No file of the set lies below another one. */
  ghost predicate TreeShaped(paths: set<Path>) {
    forall p, q :: p in paths && q in paths ==> !Above(p, q)
  }

  lemma WellFormedIsTreeShaped(t: Tree)
    requires WellFormed(t)
    ensures TreeShaped(t.files.Keys)
  {
  }

  predicate Exists(t: Tree, p: Path) {
    p in t.files || p in t.dirs
  }

  predicate EmptyDir(t: Tree, p: Path) {
    (forall q :: q in t.files.Keys ==> !Above(p, q)) && (forall q :: q in t.dirs ==> !Above(p, q))
  }

  /** Some parent component of `p` is a regular file, so walking to `p` fails. */
  predicate Obstructed(t: Tree, p: Path) {
    exists q :: q in Ancestors(p) && q in t.files
  }

  /** Remove a regular file; an absent entry is success, a directory is refused. */
  function Unlink(t: Tree, p: Path): Option<Tree> {
    if Obstructed(t, p) || p in t.dirs then None
    else Some(t.(files := t.files - {p}))
  }

  /** Write a regular file: an empty directory at `p` is removed first, missing parents are made. */
  function Write(t: Tree, p: Path, image: Image): Option<Tree> {
    if Obstructed(t, p) || (p in t.dirs && !EmptyDir(t, p)) then None
    else Some(Tree(t.files[p := image], t.dirs - {p} + Ancestors(p)))
  }

  lemma UnlinkKeepsShape(t: Tree, p: Path)
    requires WellFormed(t) && Unlink(t, p).Some?
    ensures WellFormed(Unlink(t, p).value)
  {
  }

  lemma WriteKeepsShape(t: Tree, p: Path, image: Image)
    requires WellFormed(t) && Write(t, p, image).Some?
    ensures WellFormed(Write(t, p, image).value)
  {
    var t' := Write(t, p, image).value;
    assert forall q :: !Above(q, q) by {
      assert forall q: Path :: |q + "/"| > |q|;
    }
    forall a, q | q in t'.files && Above(a, q)
      ensures a in t'.dirs
    {
      if q != p {
        assert q in t.files && a in t.dirs;
        assert a != p;
      }
    }
    forall a, q | q in t'.dirs && Above(a, q)
      ensures a in t'.dirs
    {
      if Above(q, p) {
        AboveTransitive(a, q, p);
      } else {
        assert a != p;
      }
    }
  }
}
