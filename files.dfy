/**
 * The local file system an app directory lives in: a map from each file's
 * path to its content. Directories are not stored; a directory exists when
 * some file lies below it.
 */
module Files {
  import opened Paths

  /** The file system, changed in place one file at a time. */
  class FileStore {
    var files: map<Path, string>

    /** An empty file system. */
    constructor()
      ensures files == map[]
    {
      files := map[];
    }

    /** Creates or replaces the file at `path`; every other file is left alone. */
    method WriteFile(path: Path, content: string)
      modifies this
      ensures files == old(files)[path := content]
    {
      files := files[path := content];
    }
  }

  /* ---------------- writes as map unions ---------------- */

  /** Writing a file after a union of writes is the union with that write added last. */
  lemma UnionUpdate(a: map<Path, string>, b: map<Path, string>, p: Path, v: string)
    ensures (a + b)[p := v] == a + b[p := v]
  {
  }

  lemma UnionAssoc(a: map<Path, string>, b: map<Path, string>, c: map<Path, string>)
    ensures (a + b) + c == a + (b + c)
  {
  }

  lemma UpdateIsUnion(a: map<Path, string>, p: Path, v: string)
    ensures a[p := v] == a + map[p := v]
  {
  }

  lemma UnionEmpty(a: map<Path, string>)
    ensures a + map[] == a
  {
  }

  /** Files with different names in one directory are different files. */
  lemma SiblingsDistinct(dir: Path, a: string, b: string)
    requires a != b
    ensures dir + [a] != dir + [b]
  {
    assert (dir + [a])[|dir|] == a;
    assert (dir + [b])[|dir|] == b;
  }

  /** `p` lies strictly below the directory `dir`. */
  predicate Within(p: Path, dir: Path)
  {
    |p| > |dir| && p[..|dir|] == dir
  }

  /** The paths, relative to `dir`, of the files below `dir`. */
  function Below(files: map<Path, string>, dir: Path): set<Path>
  {
    set p | p in files && Within(p, dir) :: p[|dir|..]
  }

  /** A relative path is listed below `dir` exactly when the file it names exists. */
  lemma BelowSpec(files: map<Path, string>, dir: Path, r: Path)
    ensures r in Below(files, dir) <==> r != [] && dir + r in files
  {
    if r != [] && dir + r in files {
      assert Within(dir + r, dir);
      assert (dir + r)[|dir|..] == r;
    }
    if r in Below(files, dir) {
      var p :| p in files && Within(p, dir) && p[|dir|..] == r;
      assert p == dir + r;
    }
  }

  /** The names of the directories directly inside `dir`: first names of relative paths that go deeper. */
  function SubDirs(files: map<Path, string>, dir: Path): set<string>
  {
    set r | r in Below(files, dir) && |r| > 1 :: r[0]
  }

  /** A name is a sub-directory of `dir` exactly when some file lies below `dir/name`. */
  lemma SubDirsSpec(files: map<Path, string>, dir: Path, name: string)
    ensures name in SubDirs(files, dir) <==> exists r :: r != [] && dir + [name] + r in files
  {
    if name in SubDirs(files, dir) {
      var r :| r in Below(files, dir) && |r| > 1 && r[0] == name;
      BelowSpec(files, dir, r);
      assert dir + [name] + r[1..] == dir + r;
    }
    if exists r :: r != [] && dir + [name] + r in files {
      var r :| r != [] && dir + [name] + r in files;
      assert dir + ([name] + r) == dir + [name] + r;
      BelowSpec(files, dir, [name] + r);
    }
  }

  /** A path inside a child directory is inside the parent, under the child's name. */
  lemma WithinChild(q: Path, parent: Path, name: string)
    requires Within(q, parent + [name])
    ensures Within(q, parent) && q[|parent|] == name
  {
    assert q[..|parent|] == (parent + [name])[..|parent|];
  }

  /** Every file of `part` is in `files` with the same content. */
  ghost predicate Contains(files: map<Path, string>, part: map<Path, string>)
  {
    forall p :: p in part ==> p in files && files[p] == part[p]
  }

  lemma ContainsTransitive(a: map<Path, string>, b: map<Path, string>, c: map<Path, string>)
    requires Contains(a, b) && Contains(b, c)
    ensures Contains(a, c)
  {
  }
}
