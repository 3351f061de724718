/**
 * The slice of java.io and java.nio.file the core relies on, as values:
 * a File is a Path (absolute or relative, and its name components), the disk
 * is a FileSystem value, and every operation that changes the disk returns the
 * new FileSystem. Archives (zip and jar files) are read through a decoder that
 * the caller supplies.
 */
module FileSystems {
  import opened Base

  /** A java.io.File: whether it is absolute, and its name components. */
  datatype Path = Path(absolute: bool, names: seq<string>)

  /** Where a path points: the names leading to it from the filesystem root. */
  type Location = seq<string>

  /**
   * The disk: the working directory that relative paths start from, the
   * directories, and the regular files with their contents.
   */
  datatype FileSystem = FileSystem(cwd: Location, dirs: set<Location>, files: map<Location, seq<byte>>)

  /** A zip or jar entry: its name and its uncompressed content. */
  datatype Entry = Entry(name: string, content: seq<byte>)

  /** A well-formed tree: every ancestor of a directory or file is a directory, and no file is a directory. */
  ghost predicate Valid(fs: FileSystem) {
    && (forall d, k :: d in fs.dirs && 0 <= k <= |d| ==> d[..k] in fs.dirs)
    && (forall f :: f in fs.files ==> f != [] && f[..|f| - 1] in fs.dirs && f !in fs.dirs)
  }

  /** l lies at or below root. */
  predicate Under(root: Location, l: Location) {
    |root| <= |l| && l[..|root|] == root
  }

  /** File.getAbsolutePath, as a location: relative paths start at the working directory. */
  function Locate(fs: FileSystem, p: Path): (l: Location)
    ensures p.absolute ==> l == p.names
    ensures !p.absolute ==> Under(fs.cwd, l) && l[|fs.cwd|..] == p.names
  {
    if p.absolute then p.names else fs.cwd + p.names
  }

  predicate IsDirectory(fs: FileSystem, p: Path) {
    Locate(fs, p) in fs.dirs
  }

  predicate IsFile(fs: FileSystem, p: Path) {
    Locate(fs, p) in fs.files
  }

  predicate Exists(fs: FileSystem, p: Path) {
    IsDirectory(fs, p) || IsFile(fs, p)
  }

  /** new File(parent, name), for a name that is a single component. */
  function Child(p: Path, name: string): (r: Path)
    ensures |r.names| == |p.names| + 1 && r.names[|p.names|] == name
    ensures r.absolute == p.absolute && r.names[..|p.names|] == p.names
  {
    Path(p.absolute, p.names + [name])
  }

  /** File.getParentFile of a path with at least one name. */
  function Parent(p: Path): (r: Path)
    requires p.names != []
    ensures r.absolute == p.absolute && Child(r, p.names[|p.names| - 1]) == p
  {
    Path(p.absolute, p.names[..|p.names| - 1])
  }

  /** The index of the first '/' in s, or |s| when there is none. */
  function FirstSlash(s: string): (k: nat)
    ensures k <= |s|
    ensures forall i :: 0 <= i < k ==> s[i] != '/'
    ensures k < |s| ==> s[k] == '/'
  {
    if s == [] || s[0] == '/' then 0 else 1 + FirstSlash(s[1..])
  }

  /** The name components of a path string: the pieces between '/', empty pieces dropped. */
  function SplitNames(s: string): (r: seq<string>)
    ensures forall i :: 0 <= i < |r| ==> r[i] != [] && '/' !in r[i]
    ensures s != [] && s[|s| - 1] != '/' ==> r != []
    decreases |s|
  {
    if s == [] then []
    else
      var k := FirstSlash(s);
      var rest := if k < |s| then SplitNames(s[k + 1..]) else [];
      if k == 0 then rest else [s[..k]] + rest
  }

  /** new File(String). */
  function ParsePath(s: string): (p: Path)
    ensures p.absolute <==> StartsWith(s, "/")
    ensures forall i :: 0 <= i < |p.names| ==> p.names[i] != [] && '/' !in p.names[i]
  {
    Path(|s| > 0 && s[0] == '/', SplitNames(s))
  }

  /** new File(parent, child) for a child string that may hold several components. */
  function Resolve(p: Path, child: string): (r: Path)
    ensures r.absolute == p.absolute && r.names == p.names + SplitNames(child)
  {
    Path(p.absolute, p.names + SplitNames(child))
  }

  function Join(names: seq<string>): string {
    if names == [] then ""
    else if |names| == 1 then names[0]
    else names[0] + "/" + Join(names[1..])
  }

  /** File.toString: the components joined by '/', after a leading '/' when absolute. */
  function ToString(p: Path): (s: string)
    ensures p.absolute ==> StartsWith(s, "/")
  {
    (if p.absolute then "/" else "") + Join(p.names)
  }

  /** ZipFile(p): the entries, or None when p is not a regular file or not an archive. */
  function OpenArchive(fs: FileSystem, p: Path, unzip: seq<byte> -> Option<seq<Entry>>): (r: Option<seq<Entry>>)
    ensures !IsFile(fs, p) ==> r == None
  {
    if IsFile(fs, p) then unzip(fs.files[Locate(fs, p)]) else None
  }

  /** ZipFile.getEntry(name) != null. */
  predicate HasEntry(entries: seq<Entry>, name: string) {
    exists i :: 0 <= i < |entries| && entries[i].name == name
  }

  /**
   * File.mkdirs: false when the path already exists or an ancestor is a
   * regular file; otherwise every missing ancestor and the path itself are
   * created.
   */
  function Mkdirs(fs: FileSystem, p: Path): (r: (bool, FileSystem))
    ensures r.0 <==> !Exists(fs, p) && forall k :: 0 <= k <= |Locate(fs, p)| ==> Locate(fs, p)[..k] !in fs.files
    ensures !r.0 ==> r.1 == fs
    ensures r.0 ==> r.1.files == fs.files && r.1.cwd == fs.cwd && Locate(fs, p) in r.1.dirs
    ensures r.0 ==> forall d :: d in r.1.dirs <==> d in fs.dirs || (|d| <= |Locate(fs, p)| && d == Locate(fs, p)[..|d|])
  {
    var l := Locate(fs, p);
    if Exists(fs, p) || exists k :: 0 <= k <= |l| && l[..k] in fs.files then (false, fs)
    else
      assert l[..|l|] == l;
      (true, fs.(dirs := fs.dirs + set k | 0 <= k <= |l| :: l[..k]))
  }

  /** Mkdirs keeps the tree well formed. */
  lemma MkdirsValid(fs: FileSystem, p: Path)
    requires Valid(fs)
    ensures Valid(Mkdirs(fs, p).1)
  {
    var l := Locate(fs, p);
    var (ok, fs') := Mkdirs(fs, p);
    if ok {
      forall d, k | d in fs'.dirs && 0 <= k <= |d| ensures d[..k] in fs'.dirs {
        if d !in fs.dirs {
          assert d == l[..|d|];
          assert d[..k] == l[..k];
        }
      }
    }
  }

  /** Mkdirs below an existing directory root creates nothing outside root. */
  lemma MkdirsBelow(fs: FileSystem, p: Path, root: Location)
    requires Valid(fs) && root in fs.dirs && Under(root, Locate(fs, p))
    ensures var fs' := Mkdirs(fs, p).1;
            Valid(fs') && SameOutside(fs, fs', root) && root in fs'.dirs
  {
    MkdirsValid(fs, p);
    var l := Locate(fs, p);
    var fs' := Mkdirs(fs, p).1;
    forall d | !Under(root, d) && d in fs'.dirs ensures d in fs.dirs {
      if |d| < |root| {
        assert l[..|d|] == root[..|d|];
      } else if |d| <= |l| {
        assert l[..|d|][..|root|] == l[..|root|];
      }
    }
  }

  /**
   * new FileOutputStream(p): truncates or creates a regular file; fails
   * (FileNotFoundException) when p is a directory or its parent is not one.
   */
  function CreateFile(fs: FileSystem, p: Path): (r: Result<FileSystem, string>)
    ensures r.Success? <==> !IsDirectory(fs, p) && Locate(fs, p) != [] && Locate(fs, p)[..|Locate(fs, p)| - 1] in fs.dirs
    ensures r.Success? ==> r.value == fs.(files := fs.files[Locate(fs, p) := []])
  {
    var l := Locate(fs, p);
    if IsDirectory(fs, p) || l == [] || l[..|l| - 1] !in fs.dirs then Failure("FileNotFoundException: " + ToString(p))
    else Success(fs.(files := fs.files[l := []]))
  }

  /** Creating a file below root keeps the tree well formed and changes nothing outside root. */
  lemma CreateFileBelow(fs: FileSystem, p: Path, root: Location)
    requires Valid(fs) && Under(root, Locate(fs, p))
    requires CreateFile(fs, p).Success?
    ensures Valid(CreateFile(fs, p).value) && SameOutside(fs, CreateFile(fs, p).value, root)
  {
  }

  /** Writing the content a stream produced into a file that CreateFile made. */
  function StoreContent(fs: FileSystem, l: Location, content: seq<byte>): (r: FileSystem)
    requires l in fs.files
    ensures r.dirs == fs.dirs && r.cwd == fs.cwd && r.files.Keys == fs.files.Keys
    ensures r.files[l] == content && forall f :: f in fs.files && f != l ==> r.files[f] == fs.files[f]
  {
    fs.(files := fs.files[l := content])
  }

  /** Why Files.delete refuses. */
  datatype DeleteError = NoSuchFile | DirectoryNotEmpty

  /** Files.delete: a regular file, or an empty directory. */
  function Delete(fs: FileSystem, l: Location): (r: Result<FileSystem, DeleteError>)
    ensures l !in fs.files && l !in fs.dirs ==> r == Failure(NoSuchFile)
    ensures l in fs.files ==> r == Success(fs.(files := fs.files - {l}))
    ensures l !in fs.files && l in fs.dirs ==>
              r == if HasChildren(fs, l) then Failure(DirectoryNotEmpty) else Success(fs.(dirs := fs.dirs - {l}))
  {
    if l in fs.files then Success(fs.(files := fs.files - {l}))
    else if l !in fs.dirs then Failure(NoSuchFile)
    else if HasChildren(fs, l) then Failure(DirectoryNotEmpty)
    else Success(fs.(dirs := fs.dirs - {l}))
  }

  /** Some directory or file lies strictly below l. */
  predicate HasChildren(fs: FileSystem, l: Location) {
    (exists d :: d in fs.dirs && |d| > |l| && Under(l, d)) || (exists f :: f in fs.files && |f| > |l| && Under(l, f))
  }

  /** a and b hold the same directories and files everywhere outside root. */
  ghost predicate SameOutside(a: FileSystem, b: FileSystem, root: Location) {
    && a.cwd == b.cwd
    && (forall d :: !Under(root, d) ==> (d in a.dirs <==> d in b.dirs))
    && (forall f :: !Under(root, f) ==> (f in a.files <==> f in b.files))
    && (forall f :: !Under(root, f) && f in a.files ==> a.files[f] == b.files[f])
  }

  lemma SameOutsideTransitive(a: FileSystem, b: FileSystem, c: FileSystem, root: Location)
    requires SameOutside(a, b, root) && SameOutside(b, c, root)
    ensures SameOutside(a, c, root)
  {
  }

  /** Nothing lies at or below root. */
  ghost predicate Absent(fs: FileSystem, root: Location) {
    (forall d :: d in fs.dirs ==> !Under(root, d)) && (forall f :: f in fs.files ==> !Under(root, f))
  }

  /** In a well-formed tree, a missing location has nothing below it. */
  lemma MissingHasNothingBelow(fs: FileSystem, root: Location)
    requires Valid(fs) && root !in fs.dirs && root !in fs.files
    ensures Absent(fs, root)
  {
    forall f | f in fs.files ensures !Under(root, f) {
      var parent := f[..|f| - 1];
      if |f| > |root| {
        assert parent in fs.dirs;
        assert parent[..|root|] == f[..|root|] && parent[..|root|] in fs.dirs;
      } else {
        assert f[..|f|] == f;
      }
    }
  }

  lemma UnderTransitive(a: Location, b: Location, c: Location)
    requires Under(a, b) && Under(b, c)
    ensures Under(a, c)
  {
    assert c[..|a|] == c[..|b|][..|a|];
  }

  /** Two disks that agree outside root, and hold nothing at or below it, are equal. */
  lemma SameOutsideAbsentEqual(a: FileSystem, b: FileSystem, root: Location)
    requires SameOutside(a, b, root) && Absent(a, root) && Absent(b, root)
    ensures a == b
  {
    assert a.dirs == b.dirs;
    assert a.files.Keys == b.files.Keys;
    assert a.files == b.files;
  }
}
