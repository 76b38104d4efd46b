/** Paths as pathlib builds them, and the part of the filesystem the
    targets touch: which directories and which files exist. */
module Files {
  import opened PyStr

  /** A path: absolute or relative to the working directory, and its parts. */
  datatype FsPath = FsPath(absolute: bool, parts: seq<string>)

  /** `Path("chats")`, the root of every target's directory. */
  function Chats(): FsPath
  {
    FsPath(false, ["chats"])
  }

  /** `base / p` for a path `p`: an absolute `p` replaces `base`. */
  function Join(base: FsPath, p: FsPath): (r: FsPath)
    ensures p.absolute ==> r == p
    ensures !p.absolute ==> r.absolute == base.absolute && r.parts == base.parts + p.parts
  {
    if p.absolute then p else FsPath(base.absolute, base.parts + p.parts)
  }

  /** `base / name` for a single path component `name`. */
  function Child(base: FsPath, name: string): FsPath
  {
    FsPath(base.absolute, base.parts + [name])
  }

  /** `p.parent`; the root and `.` are their own parents. */
  function Parent(p: FsPath): FsPath
  {
    if |p.parts| == 0 then p else FsPath(p.absolute, p.parts[..|p.parts| - 1])
  }

  lemma ParentOfChild(base: FsPath, name: string)
    ensures Parent(Child(base, name)) == base
  {
    assert (base.parts + [name])[..|base.parts|] == base.parts;
  }

  function JoinParts(parts: seq<string>): string
  {
    if parts == [] then "" else if |parts| == 1 then parts[0] else parts[0] + "/" + JoinParts(parts[1..])
  }

  /** `str(p)`. */
  function PathString(p: FsPath): string
  {
    if p.absolute then "/" + JoinParts(p.parts)
    else if p.parts == [] then "."
    else JoinParts(p.parts)
  }

  /** The directories `p.mkdir(parents=True)` makes sure of: `p` and each of
      its ancestors, the root or `.` aside. */
  function Ancestors(p: FsPath): (s: set<FsPath>)
    ensures |p.parts| > 0 ==> p in s
  {
    assert |p.parts| > 0 ==> p == FsPath(p.absolute, p.parts[..|p.parts|]);
    set k | 1 <= k <= |p.parts| :: FsPath(p.absolute, p.parts[..k])
  }

  /** Every directory `mkdir(parents=True)` makes on the way to `p` has at
      least one part and no more parts than `p`. */
  lemma AncestorsAreShorter(p: FsPath, d: FsPath)
    requires d in Ancestors(p)
    ensures 0 < |d.parts| <= |p.parts|
  {
  }

  /** The entries of `entries` directly inside `d`: what `d.iterdir()` lists of them. */
  function EntriesIn(entries: set<FsPath>, d: FsPath): set<FsPath>
  {
    set f | f in entries && |f.parts| > 0 && Parent(f) == d
  }

  /** Making the directories on the way to `p` adds nothing inside `p`. */
  lemma MakeDirsAddsNothingInside(dirs: set<FsPath>, p: FsPath)
    ensures EntriesIn(dirs + Ancestors(p), p) == EntriesIn(dirs, p)
  {
    forall e | e in Ancestors(p) && |e.parts| > 0
      ensures Parent(e) != p
    {
      AncestorsAreShorter(p, e);
      assert |Parent(e).parts| < |p.parts|;
    }
  }

  /** Adding files inside `d` and then removing everything inside `d`
      leaves what removing everything inside `d` would have left. */
  lemma ClearAfterAdding(files: set<FsPath>, added: set<FsPath>, d: FsPath)
    requires forall f | f in added :: |f.parts| > 0 && Parent(f) == d
    ensures (files + added) - EntriesIn(files + added, d) == files - EntriesIn(files, d)
  {
  }

  /** The files and directories that exist. The working directory and the
      root always exist. */
  class FileSystem {
    var dirs: set<FsPath>
    var files: set<FsPath>

    constructor (dirs: set<FsPath>, files: set<FsPath>)
      ensures this.dirs == dirs && this.files == files
    {
      this.dirs := dirs;
      this.files := files;
    }

    predicate IsDir(d: FsPath)
      reads this
    {
      |d.parts| == 0 || d in dirs
    }

    predicate Exists(p: FsPath)
      reads this
    {
      IsDir(p) || p in files
    }

    /** The files directly inside `d`, what `d.iterdir()` lists besides directories. */
    function FilesIn(d: FsPath): set<FsPath>
      reads this
    {
      EntriesIn(files, d)
    }

    /** The directories directly inside `d`. */
    function DirsIn(d: FsPath): set<FsPath>
      reads this
    {
      EntriesIn(dirs, d)
    }

    /** `p.mkdir(parents=True, exist_ok=True)`. */
    method MakeDirs(p: FsPath)
      modifies this
      ensures dirs == old(dirs) + Ancestors(p) && files == old(files)
      ensures IsDir(p)
    {
      dirs := dirs + Ancestors(p);
    }

    /** Creating (or overwriting) the file `p`, which needs its directory. */
    method WriteFile(p: FsPath)
      requires IsDir(Parent(p))
      modifies this
      ensures files == old(files) + {p} && dirs == old(dirs)
    {
      files := files + {p};
    }

    /** `os.remove` of every file directly inside `d`. */
    method RemoveFilesIn(d: FsPath)
      modifies this
      ensures files == old(files) - old(FilesIn(d)) && dirs == old(dirs)
      ensures FilesIn(d) == {}
    {
      files := files - FilesIn(d);
    }

    /** `d.rmdir()`, which only succeeds on an empty directory. */
    method RemoveDir(d: FsPath)
      requires FilesIn(d) == {} && DirsIn(d) == {}
      modifies this
      ensures dirs == old(dirs) - {d} && files == old(files)
    {
      dirs := dirs - {d};
    }
  }
}
