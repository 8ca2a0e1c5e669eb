/**
 * The extension's output directory as a map from relative paths to file
 * contents, and the three file-system calls the popup builders make on it:
 * `writeFile`, `rename` and `rm(…, { recursive: true, force: true })`.
 * A directory is the set of files under it, so an empty directory and a
 * missing one look the same.
 */
module OutputDirs {
  import opened Strings

  /** A path relative to the output directory, one name per segment, as `path.join` builds it. */
  type Path = seq<string>

  type FileTree = map<Path, string>

  /** `p` is `dir` itself or lies inside it. */
  predicate Under(p: Path, dir: Path)
  {
    |dir| <= |p| && p[..|dir|] == dir
  }

  /** Some file is at or under `dir`. */
  predicate Occupied(t: FileTree, dir: Path)
  {
    exists p | p in t :: Under(p, dir)
  }

  /** Writing a file outside `dir` does not change whether `dir` is occupied. */
  lemma WriteOutside(t: FileTree, p: Path, content: string, dir: Path)
    requires !Under(p, dir)
    ensures Occupied(t[p := content], dir) <==> Occupied(t, dir)
  {
    if Occupied(t, dir) {
      var q :| q in t && Under(q, dir);
      assert q in t[p := content];
    }
  }

  /** `rm(dir, { recursive: true, force: true })`: never fails. */
  function Without(t: FileTree, dir: Path): (r: FileTree)
    ensures forall p :: p in r <==> p in t && !Under(p, dir)
    ensures forall p :: p in r ==> r[p] == t[p]
  {
    map p | p in t && !Under(p, dir) :: t[p]
  }

  /**
   * `rename(src, dst)` succeeds when there is something at `src`, nothing at
   * `dst` (a directory can only replace an empty one) and `dst` does not lie
   * inside `src`.
   */
  predicate CanRename(t: FileTree, src: Path, dst: Path)
  {
    Occupied(t, src) && !Occupied(t, dst) && !Under(dst, src)
  }

  /** The files under `src`, each moved to the same place under `dst`. */
  function Rerooted(t: FileTree, src: Path, dst: Path): FileTree
  {
    var targets := set q | q in t && Under(q, src) :: dst + q[|src|..];
    map p | p in targets && Under(p, dst) && src + p[|dst|..] in t :: t[src + p[|dst|..]]
  }

  /** The tree after a successful `rename(src, dst)`. */
  function Moved(t: FileTree, src: Path, dst: Path): FileTree
    requires CanRename(t, src, dst)
  {
    Without(t, src) + Rerooted(t, src, dst)
  }

  /** Two prefixes of one path: the shorter is a prefix of the longer. */
  lemma PrefixesNest(p: Path, a: Path, b: Path)
    ensures Under(p, a) && Under(p, b) && |b| <= |a| ==> Under(a, b)
  {
    if Under(p, a) && Under(p, b) && |b| <= |a| {
      assert a[..|b|] == p[..|a|][..|b|] == p[..|b|];
    }
  }

  lemma UnderTransitive(p: Path, a: Path, b: Path)
    ensures Under(p, a) && Under(a, b) ==> Under(p, b)
  {
    if Under(p, a) && Under(a, b) {
      assert p[..|b|] == p[..|a|][..|b|];
    }
  }

  /** A re-rooted file lies under `dst` and came from the same place under `src`. */
  lemma RerootedOrigin(t: FileTree, src: Path, dst: Path, p: Path)
    requires p in Rerooted(t, src, dst)
    ensures Under(p, dst)
    ensures src + p[|dst|..] in t && Under(src + p[|dst|..], src)
    ensures Rerooted(t, src, dst)[p] == t[src + p[|dst|..]]
  {
    var q :| q in t && Under(q, src) && dst + q[|src|..] == p;
    assert p[..|dst|] == dst;
    assert p[|dst|..] == q[|src|..];
    assert q == q[..|src|] + q[|src|..];
  }

  /** Every file that was under `src` is at the same place under `dst`. */
  lemma MovedKeepsContent(t: FileTree, src: Path, dst: Path, p: Path)
    requires CanRename(t, src, dst)
    requires p in t && Under(p, src)
    ensures var r := Moved(t, src, dst);
      dst + p[|src|..] in r && r[dst + p[|src|..]] == t[p]
  {
    var k := dst + p[|src|..];
    assert k[..|dst|] == dst && k[|dst|..] == p[|src|..];
    assert src + k[|dst|..] == p by {
      assert p == p[..|src|] + p[|src|..];
    }
    assert k in Rerooted(t, src, dst);
  }

  /** Every file under `dst` after the rename came from the same place under `src`. */
  lemma MovedAddsOnlyFromSource(t: FileTree, src: Path, dst: Path, p: Path)
    requires CanRename(t, src, dst)
    requires p in Moved(t, src, dst) && Under(p, dst)
    ensures src + p[|dst|..] in t && Under(src + p[|dst|..], src)
    ensures Moved(t, src, dst)[p] == t[src + p[|dst|..]]
  {
    assert p !in Without(t, src);
    RerootedOrigin(t, src, dst, p);
  }

  /** Nothing is left under `src`. */
  lemma MovedEmptiesSource(t: FileTree, src: Path, dst: Path, p: Path)
    requires CanRename(t, src, dst)
    requires p in Moved(t, src, dst)
    ensures !Under(p, src)
  {
    if p in Rerooted(t, src, dst) {
      RerootedOrigin(t, src, dst, p);
      var q := src + p[|dst|..];
      PrefixesNest(p, dst, src);
      PrefixesNest(p, src, dst);
      UnderTransitive(q, src, dst);
    }
  }

  /** Files outside both directories are untouched. */
  lemma MovedKeepsOthers(t: FileTree, src: Path, dst: Path, p: Path)
    requires CanRename(t, src, dst)
    requires !Under(p, src) && !Under(p, dst)
    ensures p in Moved(t, src, dst) <==> p in t
    ensures p in t ==> Moved(t, src, dst)[p] == t[p]
  {
    if p in Rerooted(t, src, dst) {
      RerootedOrigin(t, src, dst, p);
    }
  }

  /** The output directory the builders read and write. */
  class OutputDir {
    var files: FileTree

    constructor (files: FileTree)
      ensures this.files == files
    {
      this.files := files;
    }

    /** `readFile(p)`: fails unless a file is at `p`. */
    method Read(p: Path) returns (r: Option<string>)
      ensures p in files <==> r.Some?
      ensures r.Some? ==> r.value == files[p]
    {
      r := if p in files then Some(files[p]) else None;
    }

    /** `writeFile(p, content)` */
    method Write(p: Path, content: string)
      modifies this
      ensures files == old(files)[p := content]
    {
      files := files[p := content];
    }

    /** `rename(src, dst)`, reporting whether it succeeded. */
    method Rename(src: Path, dst: Path) returns (ok: bool)
      modifies this
      ensures ok == CanRename(old(files), src, dst)
      ensures files == if ok then Moved(old(files), src, dst) else old(files)
    {
      ok := CanRename(files, src, dst);
      if ok {
        files := Moved(files, src, dst);
      }
    }

    /** `rm(dir, { recursive: true, force: true })` */
    method Remove(dir: Path)
      modifies this
      ensures files == Without(old(files), dir)
    {
      files := Without(files, dir);
    }
  }
}
