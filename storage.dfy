/**
 * The part of the file system the organizer touches: regular files with
 * their contents, and directories. A path is the sequence of its names.
 */
module Storage {

  type Path = seq<string>
  type Content = seq<bv8>

  function Parent(p: Path): (q: Path)
    requires |p| > 0
    ensures |q| == |p| - 1 && q + [p[|p| - 1]] == p
  {
    p[..|p| - 1]
  }

  /** The name of the directory holding `p`; empty when that directory is the top of the path. */
  function ParentName(p: Path): string {
    if |p| >= 2 then p[|p| - 2] else ""
  }

  /**
   * The files after a rename of `src` to `dst`: the content moves to `dst`,
   * replacing whatever file was there, and `src` is gone.
   */
  function Renamed(files: map<Path, Content>, src: Path, dst: Path): (r: map<Path, Content>)
    requires src in files
    ensures r.Keys == files.Keys - {src} + {dst}
    ensures r[dst] == files[src]
    ensures forall p :: p in files && p != src && p != dst ==> r[p] == files[p]
  {
    (files - {src})[dst := files[src]]
  }

  /** A rename onto a path that holds no file neither loses nor adds a file. */
  lemma RenameKeepsCount(files: map<Path, Content>, src: Path, dst: Path)
    requires src in files && dst !in files
    ensures |Renamed(files, src, dst)| == |files|
  {
    var rest := files - {src};
    assert rest.Keys == files.Keys - {src};
    assert |rest.Keys| == |files.Keys| - 1;
  }

  class FileSystem {
    var files: map<Path, Content>
    var dirs: set<Path>

    /** No path is both a regular file and a directory. */
    ghost predicate Valid()
      reads this
    {
      files.Keys !! dirs
    }

    constructor (files: map<Path, Content>, dirs: set<Path>)
      requires files.Keys !! dirs
      ensures Valid() && this.files == files && this.dirs == dirs
    {
      this.files := files;
      this.dirs := dirs;
    }

    predicate Exists(p: Path)
      reads this
    {
      p in files || p in dirs
    }

    predicate IsFile(p: Path)
      reads this
    {
      p in files
    }

    /**
     * Create directory `p` unless it already is one. It fails, changing
     * nothing, when `p` is a regular file or its parent is not a directory.
     */
    method EnsureFolder(p: Path) returns (ok: bool)
      requires Valid()
      modifies this
      ensures Valid()
      ensures ok <==> p !in old(files) && (p in old(dirs) || (|p| > 0 && Parent(p) in old(dirs)))
      ensures files == old(files)
      ensures dirs == if ok then old(dirs) + {p} else old(dirs)
    {
      ok := p !in files && (p in dirs || (|p| > 0 && Parent(p) in dirs));
      if ok {
        dirs := dirs + {p};
      }
    }

    /** Move the file at `src` to `dst`, whose directory exists and which is not a directory. */
    method Rename(src: Path, dst: Path)
      requires Valid()
      requires src in files && dst !in dirs && |dst| > 0 && Parent(dst) in dirs
      modifies this
      ensures Valid()
      ensures files == Renamed(old(files), src, dst)
      ensures dirs == old(dirs)
    {
      files := Renamed(files, src, dst);
    }
  }
}
