/**
 * Off-card verification of a CAP file with an SDK's verifier: the export
 * files are collected from directories, .exp files and jars (jar entries are
 * extracted into a temporary directory), the verifier overload is chosen by
 * the SDK release, and the temporary directory is removed on every path.
 */
module OffCardVerifier {
  import opened Base
  import opened FileSystems
  import opened JavaCardSdk
  import opened Streams

  /** A verifier bound to an SDK. */
  datatype Verifier = Verifier(sdk: Sdk)

  const UNSUPPORTED_SDK := "Verification is supported with JavaCard SDK 2.2.1 or later"

  /**
   * withSDK as written: the guard compares with a constant V21 that the
   * enumeration does not declare, so the line does not compile; here the
   * comparison is by name, which no version matches. The constructor's
   * getRelease may still fail.
   */
  function WithSdkAsWritten(sdk: Sdk, toolchain: Toolchain): (r: Result<Verifier, string>)
    ensures r.Success? <==> sdk.Release(toolchain).Success?
    ensures r.Success? ==> r.value.sdk == sdk
  {
    if sdk.version.Name() == "V21" then Failure(UNSUPPORTED_SDK)
    else
      match sdk.Release(toolchain)
      case Failure(e) => Failure(e)
      case Success(_) => Success(Verifier(sdk))
  }

  /** As written, the 2.1.1 and 2.1.2 SDKs are accepted, although the guard's message asks for 2.2.1 or later. */
  lemma WithSdkAsWrittenAccepts21(root: Path, toolchain: Toolchain)
    ensures WithSdkAsWritten(Sdk(root, V211), toolchain).Success?
    ensures WithSdkAsWritten(Sdk(root, V212), toolchain).Success?
  {
  }

  /**
   * withSDK with the guard on the 2.1 line (2.1.1 and 2.1.2), as its message
   * says: refused; otherwise the verifier is made unless getRelease fails.
   */
  function WithSdk(sdk: Sdk, toolchain: Toolchain): (r: Result<Verifier, string>)
    ensures r.Success? <==> sdk.version !in {V211, V212} && sdk.Release(toolchain).Success?
    ensures sdk.version in {V211, V212} ==> r == Failure(UNSUPPORTED_SDK)
    ensures r.Success? ==> r.value.sdk == sdk
  {
    if sdk.version in {V211, V212} then Failure(UNSUPPORTED_SDK)
    else
      match sdk.Release(toolchain)
      case Failure(e) => Failure(e)
      case Success(_) => Success(Verifier(sdk))
  }

  /** verifyAgainst's vector: a copy of the caller's list with the target's export directory last. */
  function ExportsFor(exps: seq<Path>, target: Sdk): (r: seq<Path>)
    ensures |r| == |exps| + 1 && r[..|exps|] == exps && r[|exps|] == target.ExportDir()
  {
    exps + [target.ExportDir()]
  }

  /**
   * The verifyCap overload: the File one for releases 3.0.5u3 and 3.0.5u2,
   * the FileInputStream one for every other release.
   */
  function OverloadFor(release: string): (sig: MethodSig)
    ensures sig == VERIFY_CAP_FILE <==> release == "3.0.5u3" || release == "3.0.5u2"
    ensures sig == VERIFY_CAP_STREAM <==> !(release == "3.0.5u3" || release == "3.0.5u2")
  {
    if release == "3.0.5u3" || release == "3.0.5u2" then VERIFY_CAP_FILE else VERIFY_CAP_STREAM
  }

  /** Which overload each SDK gets once its verifier class loads. */
  lemma OverloadBySdk(sdk: Sdk, methods: set<MethodSig>)
    ensures sdk.Release(Some(methods)).Success?
    ensures var sig := OverloadFor(sdk.Release(Some(methods)).value);
            sig == VERIFY_CAP_FILE <==>
              sdk.version == V305 && (VERIFY_TARGET_PLATFORM in methods || VERIFY_CAP_STREAM !in methods)
  {
  }

  // ---------------------------------------------------------------- export files

  predicate IsExpPath(p: Path) {
    EndsWith(ToString(p), ".exp")
  }

  predicate IsJarPath(p: Path) {
    EndsWith(ToString(p), ".jar")
  }

  /** extractExps' test on a jar entry name: the suffix is compared after lower-casing. */
  predicate IsExpEntryName(name: string) {
    EndsWith(ToLower(name), ".exp")
  }

  /** Plain files are matched case-sensitively, jar entries are not. */
  lemma SuffixCaseDiffers()
    ensures IsExpEntryName("A.EXP")
    ensures !IsExpPath(Path(false, ["A.EXP"]))
  {
    assert ToLower("A.EXP") == "a.exp";
    assert ToString(Path(false, ["A.EXP"])) == "A.EXP";
  }

  /** The files a walk of e visits: every regular file below it, named from e. */
  function FilesUnder(fs: FileSystem, e: Path): set<Path> {
    var base := Locate(fs, e);
    set l | l in fs.files && Under(base, l) :: Path(e.absolute, e.names + l[|base|..])
  }

  predicate Distinct<T(==)>(s: seq<T>) {
    forall i, j :: 0 <= i < j < |s| ==> s[i] != s[j]
  }

  /** The walk of a directory, in the visitor's order, keeping the paths that end in ".exp". */
  method WalkExps(fs: FileSystem, e: Path) returns (found: seq<Path>)
    ensures forall p :: p in found <==> p in FilesUnder(fs, e) && IsExpPath(p)
    ensures Distinct(found)
  {
    var pending := FilesUnder(fs, e);
    found := [];
    while pending != {}
      invariant pending <= FilesUnder(fs, e)
      invariant forall p :: p in found <==> p in FilesUnder(fs, e) - pending && IsExpPath(p)
      invariant Distinct(found)
      decreases |pending|
    {
      var p :| p in pending;
      if IsExpPath(p) {
        found := found + [p];
      }
      pending := pending - {p};
    }
  }

  /** The disk after extraction, and the extracted files or the IOException's message. */
  datatype Extraction = Extraction(fs: FileSystem, result: Result<seq<Path>, string>)

  /**
   * The folder check of extractExps as written: when the file is missing,
   * mkdirs on its parent must return true, which it does not when the parent
   * already exists.
   */
  function PrepareFolderAsWritten(fs: FileSystem, f: Path): (r: Result<FileSystem, string>)
    requires f.names != []
    ensures Exists(fs, f) ==> r == Success(fs)
    ensures !Exists(fs, f) && Exists(fs, Parent(f)) ==> r.Failure?
  {
    if Exists(fs, f) then Success(fs)
    else
      var (made, fs') := Mkdirs(fs, Parent(f));
      if made then Success(fs') else Failure("Failed to create folder: " + ToString(Parent(f)))
  }

  /** The folder check as intended: fail only when the parent is not a directory and cannot be made one. */
  function PrepareFolder(fs: FileSystem, f: Path): (r: Result<FileSystem, string>)
    requires f.names != []
    ensures Exists(fs, f) || IsDirectory(fs, Parent(f)) ==> r == Success(fs)
    ensures r.Success? ==> Exists(r.value, f) || IsDirectory(r.value, Parent(f))
    ensures r.Success? ==> r.value.files == fs.files && r.value.cwd == fs.cwd
  {
    if Exists(fs, f) || IsDirectory(fs, Parent(f)) then Success(fs)
    else
      var (made, fs') := Mkdirs(fs, Parent(f));
      if made then Success(fs') else Failure("Failed to create folder: " + ToString(Parent(f)))
  }

  /**
   * As written, an .exp entry at the top of the jar is never extracted: its
   * parent is the output directory, which exists, so mkdirs returns false.
   * The intended check lets it through without touching the disk.
   */
  lemma TopLevelEntryRejectedAsWritten(fs: FileSystem, out: Path, name: string)
    requires IsDirectory(fs, out) && |SplitNames(name)| == 1
    requires !Exists(fs, Resolve(out, name))
    ensures PrepareFolderAsWritten(fs, Resolve(out, name)).Failure?
    ensures PrepareFolder(fs, Resolve(out, name)) == Success(fs)
  {
    assert Parent(Resolve(out, name)) == out;
  }

  /** The body of extractExps for one file: the folder prepared, the file created, the bytes copied in. */
  function WriteFile(fs: FileSystem, f: Path, content: seq<byte>): (r: Result<FileSystem, FileSystem>)
    requires f.names != []
    ensures r.Success? ==> r.value.cwd == fs.cwd && r.value.dirs >= fs.dirs
    ensures r.Success? ==> r.value.files == fs.files[Locate(fs, f) := content]
    ensures r.Failure? ==> r.error.cwd == fs.cwd
  {
    match PrepareFolder(fs, f)
    case Failure(_) => Failure(fs)
    case Success(fs1) =>
      match CreateFile(fs1, f)
      case Failure(_) => Failure(fs1)
      case Success(fs2) => Success(StoreContent(fs2, Locate(fs2, f), content))
  }

  /** extractExps on one selected entry; a failure keeps the disk as far as it got. */
  function WriteEntry(fs: FileSystem, entry: Entry, out: Path): (r: Extraction)
    requires out.names != []
    ensures r.fs.cwd == fs.cwd
    ensures r.result.Success? ==>
              && r.result.value == [Resolve(out, entry.name)]
              && r.fs.files == fs.files[Locate(fs, Resolve(out, entry.name)) := entry.content]
  {
    var f := Resolve(out, entry.name);
    match WriteFile(fs, f, entry.content)
    case Failure(fs') => Extraction(fs', Failure("java.io.IOException: cannot write " + ToString(f)))
    case Success(fs') => Extraction(fs', Success([f]))
  }

  /** extractExps from the current entry on, with the files extracted so far. */
  function ExtractEntries(fs: FileSystem, entries: seq<Entry>, out: Path, acc: seq<Path>): (r: Extraction)
    requires out.names != []
    ensures r.fs.cwd == fs.cwd
    ensures Selected(entries, out) == [] ==> r == Extraction(fs, Success(acc))
    decreases |entries|
  {
    if entries == [] then Extraction(fs, Success(acc))
    else if !IsExpEntryName(entries[0].name) then ExtractEntries(fs, entries[1..], out, acc)
    else
      var w := WriteEntry(fs, entries[0], out);
      if w.result.Failure? then w else ExtractEntries(w.fs, entries[1..], out, acc + w.result.value)
  }

  /** extractExps: the jar's .exp entries written under out, in entry order. */
  function Extract(fs: FileSystem, jar: Path, out: Path, unzip: seq<byte> -> Option<seq<Entry>>): (r: Extraction)
    requires out.names != []
    ensures r.fs.cwd == fs.cwd
    ensures OpenArchive(fs, jar, unzip).None? ==> r.fs == fs && r.result.Failure?
    ensures r.result.Success? ==> OpenArchive(fs, jar, unzip).Some? && r.result.value == Selected(OpenArchive(fs, jar, unzip).value, out)
  {
    match OpenArchive(fs, jar, unzip)
    case None => Extraction(fs, Failure("java.io.IOException: cannot open jar " + ToString(jar)))
    case Some(entries) =>
      ExtractEntriesSelects(fs, entries, out, []);
      assert [] + Selected(entries, out) == Selected(entries, out);
      ExtractEntries(fs, entries, out, [])
  }

  /** The files extractExps returns for a jar's entries: one per .exp entry, in order. */
  function Selected(entries: seq<Entry>, out: Path): (r: seq<Path>)
    ensures |r| <= |entries|
  {
    if entries == [] then []
    else if IsExpEntryName(entries[0].name) then [Resolve(out, entries[0].name)] + Selected(entries[1..], out)
    else Selected(entries[1..], out)
  }

  /**
   * On success the files come back in entry order, one for each entry whose
   * lower-cased name ends in ".exp" and none for the others.
   */
  lemma {:induction false} ExtractEntriesSelects(fs: FileSystem, entries: seq<Entry>, out: Path, acc: seq<Path>)
    requires out.names != []
    ensures var r := ExtractEntries(fs, entries, out, acc);
            r.result.Success? ==> r.result.value == acc + Selected(entries, out)
    decreases |entries|
  {
    if entries != [] {
      if !IsExpEntryName(entries[0].name) {
        ExtractEntriesSelects(fs, entries[1..], out, acc);
      } else {
        var w := WriteEntry(fs, entries[0], out);
        if w.result.Success? {
          ExtractEntriesSelects(w.fs, entries[1..], out, acc + w.result.value);
        }
      }
    }
  }

  /** A file that no remaining entry writes keeps its content. */
  lemma {:induction false} ExtractEntriesKeeps(fs: FileSystem, entries: seq<Entry>, out: Path, acc: seq<Path>, l: Location)
    requires out.names != [] && l in fs.files
    requires forall j :: 0 <= j < |entries| && IsExpEntryName(entries[j].name) ==>
               Locate(fs, Resolve(out, entries[j].name)) != l
    ensures var r := ExtractEntries(fs, entries, out, acc);
            r.result.Success? ==> l in r.fs.files && r.fs.files[l] == fs.files[l]
    decreases |entries|
  {
    if entries != [] {
      if !IsExpEntryName(entries[0].name) {
        ExtractEntriesKeeps(fs, entries[1..], out, acc, l);
      } else {
        var w := WriteEntry(fs, entries[0], out);
        if w.result.Success? {
          ExtractEntriesKeeps(w.fs, entries[1..], out, acc + w.result.value, l);
        }
      }
    }
  }

  /** On success each extracted file holds its entry's bytes, unless a later entry writes the same file. */
  lemma {:induction false} ExtractEntriesContent(fs: FileSystem, entries: seq<Entry>, out: Path, acc: seq<Path>, k: nat)
    requires out.names != []
    requires k < |entries| && IsExpEntryName(entries[k].name)
    requires forall j :: k < j < |entries| && IsExpEntryName(entries[j].name) ==>
               Locate(fs, Resolve(out, entries[j].name)) != Locate(fs, Resolve(out, entries[k].name))
    ensures var r := ExtractEntries(fs, entries, out, acc);
            var l := Locate(fs, Resolve(out, entries[k].name));
            r.result.Success? ==> l in r.fs.files && r.fs.files[l] == entries[k].content
    decreases |entries|
  {
    if !IsExpEntryName(entries[0].name) {
      assert forall j :: 0 <= j < |entries| - 1 ==> entries[1..][j] == entries[j + 1];
      ExtractEntriesContent(fs, entries[1..], out, acc, k - 1);
    } else {
      var w := WriteEntry(fs, entries[0], out);
      if w.result.Success? {
        if k > 0 {
          assert forall j :: 0 <= j < |entries| - 1 ==> entries[1..][j] == entries[j + 1];
          ExtractEntriesContent(w.fs, entries[1..], out, acc + w.result.value, k - 1);
        } else {
          var rest := entries[1..];
          assert forall j :: 0 <= j < |rest| ==> rest[j] == entries[j + 1];
          ExtractEntriesKeeps(w.fs, rest, out, acc + w.result.value, Locate(fs, Resolve(out, entries[0].name)));
        }
      }
    }
  }

  /** Entry names with different components land on different files, so only such names can clash. */
  lemma ResolveApart(fs: FileSystem, out: Path, a: string, b: string)
    requires SplitNames(a) != SplitNames(b)
    ensures Locate(fs, Resolve(out, a)) != Locate(fs, Resolve(out, b))
  {
    var x, y := SplitNames(a), SplitNames(b);
    assert Resolve(out, a) == Path(out.absolute, out.names + x);
    assert Resolve(out, b) == Path(out.absolute, out.names + y);
    BelowApart(fs, out, x, y);
  }

  lemma BelowApart(fs: FileSystem, out: Path, x: seq<string>, y: seq<string>)
    requires x != y
    ensures Locate(fs, Path(out.absolute, out.names + x)) != Locate(fs, Path(out.absolute, out.names + y))
  {
    var base := Locate(fs, out);
    assert Locate(fs, Path(out.absolute, out.names + x)) == base + x;
    assert Locate(fs, Path(out.absolute, out.names + y)) == base + y;
    assert (base + x)[|base|..] == x;
    assert (base + y)[|base|..] == y;
  }

  /** A selected entry name has at least one component, so its file lies strictly below out. */
  lemma ExpEntryHasComponents(name: string)
    requires IsExpEntryName(name)
    ensures SplitNames(name) != []
  {
    var lower := ToLower(name);
    assert lower[|lower| - 1] == 'p';
    assert ToLowerChar(name[|name| - 1]) == 'p';
  }

  /** Writing a file strictly below out keeps the tree well formed and changes nothing outside out. */
  lemma WriteFileFrame(fs: FileSystem, f: Path, content: seq<byte>, base: Location)
    requires f.names != [] && Valid(fs) && base in fs.dirs
    requires Under(base, Locate(fs, Parent(f))) && Under(base, Locate(fs, f))
    ensures var r := WriteFile(fs, f, content);
            var fs' := if r.Success? then r.value else r.error;
            Valid(fs') && SameOutside(fs, fs', base) && base in fs'.dirs
  {
    if !(Exists(fs, f) || IsDirectory(fs, Parent(f))) {
      MkdirsBelow(fs, Parent(f), base);
    }
    match PrepareFolder(fs, f)
    case Failure(_) =>
    case Success(fs1) =>
      if CreateFile(fs1, f).Success? {
        CreateFileBelow(fs1, f, base);
      }
  }

  /** A path made of out's names and at least one more lies, with its parent, below out. */
  lemma BelowOut(fs: FileSystem, out: Path, split: seq<string>)
    requires split != []
    ensures var f := Path(out.absolute, out.names + split);
            f.names != [] && Under(Locate(fs, out), Locate(fs, Parent(f))) && Under(Locate(fs, out), Locate(fs, f))
  {
    var base := Locate(fs, out);
    var f := Path(out.absolute, out.names + split);
    assert Locate(fs, f) == base + split;
    assert Parent(f) == Path(out.absolute, out.names + split[..|split| - 1]);
    assert Locate(fs, Parent(f)) == base + split[..|split| - 1];
    assert (base + split[..|split| - 1])[..|base|] == base;
    assert (base + split)[..|base|] == base;
  }

  /** Writing one entry below out keeps the tree well formed and changes nothing outside out. */
  lemma WriteEntryFrame(fs: FileSystem, entry: Entry, out: Path)
    requires out.names != [] && IsExpEntryName(entry.name)
    requires Valid(fs) && IsDirectory(fs, out)
    ensures var w := WriteEntry(fs, entry, out);
            Valid(w.fs) && SameOutside(fs, w.fs, Locate(fs, out)) && IsDirectory(w.fs, out)
  {
    ExpEntryHasComponents(entry.name);
    var split := SplitNames(entry.name);
    BelowOut(fs, out, split);
    assert Resolve(out, entry.name) == Path(out.absolute, out.names + split);
    WriteFileFrame(fs, Resolve(out, entry.name), entry.content, Locate(fs, out));
  }

  lemma {:induction false} ExtractEntriesFrame(fs: FileSystem, entries: seq<Entry>, out: Path, acc: seq<Path>)
    requires out.names != [] && Valid(fs) && IsDirectory(fs, out)
    ensures var r := ExtractEntries(fs, entries, out, acc);
            Valid(r.fs) && SameOutside(fs, r.fs, Locate(fs, out)) && IsDirectory(r.fs, out)
    decreases |entries|
  {
    if entries != [] {
      if !IsExpEntryName(entries[0].name) {
        ExtractEntriesFrame(fs, entries[1..], out, acc);
      } else {
        var w := WriteEntry(fs, entries[0], out);
        WriteEntryFrame(fs, entries[0], out);
        if w.result.Success? {
          ExtractEntriesFrame(w.fs, entries[1..], out, acc + w.result.value);
        }
      }
    }
  }

  /** extractExps writes only below its output directory and leaves the tree well formed. */
  lemma ExtractFrame(fs: FileSystem, jar: Path, out: Path, unzip: seq<byte> -> Option<seq<Entry>>)
    requires out.names != [] && Valid(fs) && IsDirectory(fs, out)
    ensures var r := Extract(fs, jar, out, unzip);
            Valid(r.fs) && SameOutside(fs, r.fs, Locate(fs, out)) && IsDirectory(r.fs, out)
  {
    match OpenArchive(fs, jar, unzip)
    case None =>
    case Some(entries) => ExtractEntriesFrame(fs, entries, out, []);
  }

  /**
   * extractExps: the entry loop, the folder check, and the buffered copy of
   * each selected entry into its file; the same disk and files as Extract.
   */
  method ExtractExps(fs: FileSystem, jar: Path, out: Path, unzip: seq<byte> -> Option<seq<Entry>>)
    returns (fs': FileSystem, r: Result<seq<Path>, string>)
    requires out.names != []
    ensures Extraction(fs', r) == Extract(fs, jar, out, unzip)
  {
    var archive := OpenArchive(fs, jar, unzip);
    if archive.None? {
      return fs, Failure("java.io.IOException: cannot open jar " + ToString(jar));
    }
    var entries := archive.value;
    var exps: seq<Path> := [];
    fs' := fs;
    var i := 0;
    while i < |entries|
      invariant 0 <= i <= |entries|
      invariant ExtractEntries(fs', entries[i..], out, exps) == ExtractEntries(fs, entries, out, [])
    {
      assert entries[i..][1..] == entries[i + 1..];
      var entry := entries[i];
      if IsExpEntryName(entry.name) {
        var f := Resolve(out, entry.name);
        var prepared := PrepareFolder(fs', f);
        if prepared.Failure? {
          return fs', Failure("java.io.IOException: cannot write " + ToString(f));
        }
        var created := CreateFile(prepared.value, f);
        if created.Failure? {
          return prepared.value, Failure("java.io.IOException: cannot write " + ToString(f));
        }
        var input := new EntryStream(entry.content);
        var output := new FileOutput();
        Copy(input, output);
        assert output.written == entry.content;
        fs' := StoreContent(created.value, Locate(created.value, f), output.written);
        exps := exps + [f];
      }
      i := i + 1;
    }
    r := Success(exps);
  }

  /** Every directory in a finite non-empty set has none longer than the longest. */
  lemma {:induction false} LongestExists(ds: set<Location>)
    requires ds != {}
    ensures exists d :: d in ds && forall e :: e in ds ==> |e| <= |d|
    decreases |ds|
  {
    var x :| x in ds;
    if ds != {x} {
      LongestExists(ds - {x});
      var y :| y in ds - {x} && forall e :: e in ds - {x} ==> |e| <= |y|;
      if |x| > |y| {
        assert forall e :: e in ds ==> |e| <= |x|;
      } else {
        assert forall e :: e in ds ==> |e| <= |y|;
      }
    } else {
      assert forall e :: e in ds ==> |e| <= |x|;
    }
  }

  /**
   * rmminusrf: every file below root deleted, then every directory after all
   * below it, root last; a root that is already gone counts as done.
   */
  method RemoveTree(fs: FileSystem, root: Path) returns (fs': FileSystem)
    requires Valid(fs)
    ensures fs'.cwd == fs.cwd
    ensures forall d :: d in fs'.dirs <==> d in fs.dirs && !Under(Locate(fs, root), d)
    ensures forall f :: f in fs'.files <==> f in fs.files && !Under(Locate(fs, root), f)
    ensures forall f :: f in fs'.files ==> fs'.files[f] == fs.files[f]
  {
    var base := Locate(fs, root);
    fs' := fs;
    if base !in fs.dirs && base !in fs.files {
      MissingHasNothingBelow(fs, base);
      return;
    }
    var files := set f | f in fs.files && Under(base, f);
    while files != {}
      invariant fs'.cwd == fs.cwd && fs'.dirs == fs.dirs
      invariant forall f :: f in fs'.files <==> f in fs.files && (!Under(base, f) || f in files)
      invariant forall f :: f in fs'.files ==> fs'.files[f] == fs.files[f]
      invariant forall f :: f in files ==> f in fs.files && Under(base, f)
      decreases |files|
    {
      var f :| f in files;
      fs' := Delete(fs', f).value;
      files := files - {f};
    }
    var dirs := set d | d in fs.dirs && Under(base, d);
    while dirs != {}
      invariant fs'.cwd == fs.cwd
      invariant forall f :: f in fs'.files <==> f in fs.files && !Under(base, f)
      invariant forall f :: f in fs'.files ==> fs'.files[f] == fs.files[f]
      invariant forall d :: d in fs'.dirs <==> d in fs.dirs && (!Under(base, d) || d in dirs)
      invariant forall d :: d in dirs ==> d in fs.dirs && Under(base, d)
      decreases |dirs|
    {
      LongestExists(dirs);
      var d :| d in dirs && forall e :: e in dirs ==> |e| <= |d|;
      assert !HasChildren(fs', d) by {
        forall e | e in fs'.dirs && |e| > |d| ensures !Under(d, e) {
          if Under(d, e) {
            UnderTransitive(base, d, e);
          }
        }
        forall f | f in fs'.files && |f| > |d| ensures !Under(d, f) {
          if Under(d, f) {
            UnderTransitive(base, d, f);
          }
        }
      }
      assert d in fs'.dirs && d !in fs'.files;
      fs' := Delete(fs', d).value;
      dirs := dirs - {d};
    }
  }

  /** The concatenation of the parts, in order. */
  function Flatten(parts: seq<seq<Path>>): seq<Path> {
    if parts == [] then [] else Flatten(parts[..|parts| - 1]) + parts[|parts| - 1]
  }

  /** What a walk of e hands the visitor: each ".exp" file below it, once. */
  ghost predicate IsWalk(fs: FileSystem, e: Path, found: seq<Path>) {
    (forall p :: p in found <==> p in FilesUnder(fs, e) && IsExpPath(p)) && Distinct(found)
  }

  /**
   * What one source adds to the export list, and the disk after it: a
   * directory its walk, a ".exp" file itself, a ".jar" file its extracted
   * entries, anything else (a missing path included) nothing.
   */
  ghost predicate Contribution(fs: FileSystem, e: Path, tmp: Path, unzip: seq<byte> -> Option<seq<Entry>>,
                               part: seq<Path>, fs': FileSystem)
    requires tmp.names != []
  {
    if IsDirectory(fs, e) then fs' == fs && IsWalk(fs, e, part)
    else if IsFile(fs, e) && IsExpPath(e) then fs' == fs && part == [e]
    else if IsFile(fs, e) && IsJarPath(e) then Extract(fs, e, tmp, unzip) == Extraction(fs', Success(part))
    else fs' == fs && part == []
  }

  /** One source of the export collection. */
  method CollectFrom(fs: FileSystem, e: Path, tmp: Path, unzip: seq<byte> -> Option<seq<Entry>>)
    returns (next: FileSystem, r: Result<seq<Path>, string>)
    requires tmp.names != [] && Valid(fs) && IsDirectory(fs, tmp)
    ensures Valid(next) && SameOutside(fs, next, Locate(fs, tmp)) && IsDirectory(next, tmp)
    ensures r.Success? ==> Contribution(fs, e, tmp, unzip, r.value, next)
    ensures r.Failure? ==>
              !IsDirectory(fs, e) && IsFile(fs, e) && !IsExpPath(e) && IsJarPath(e) &&
              Extract(fs, e, tmp, unzip) == Extraction(next, Failure(r.error))
  {
    next := fs;
    r := Success([]);
    if IsDirectory(fs, e) {
      var found := WalkExps(fs, e);
      r := Success(found);
    } else if IsFile(fs, e) {
      if IsExpPath(e) {
        r := Success([e]);
      } else if IsJarPath(e) {
        ExtractFrame(fs, e, tmp, unzip);
        next, r := ExtractExps(fs, e, tmp, unzip);
      }
    }
  }

  /** Each of the first |parts| sources turns states[i] into states[i + 1], adding parts[i]. */
  ghost predicate Chain(exps: seq<Path>, tmp: Path, unzip: seq<byte> -> Option<seq<Entry>>,
                        parts: seq<seq<Path>>, states: seq<FileSystem>)
    requires tmp.names != []
  {
    && |states| == |parts| + 1 && |parts| <= |exps|
    && forall i :: 0 <= i < |parts| ==> Contribution(states[i], exps[i], tmp, unzip, parts[i], states[i + 1])
  }

  lemma ChainExtend(exps: seq<Path>, tmp: Path, unzip: seq<byte> -> Option<seq<Entry>>,
                    parts: seq<seq<Path>>, states: seq<FileSystem>, part: seq<Path>, next: FileSystem)
    requires tmp.names != [] && Chain(exps, tmp, unzip, parts, states) && |parts| < |exps|
    requires Contribution(states[|parts|], exps[|parts|], tmp, unzip, part, next)
    ensures Chain(exps, tmp, unzip, parts + [part], states + [next])
  {
    var parts', states' := parts + [part], states + [next];
    forall i | 0 <= i < |parts'|
      ensures Contribution(states'[i], exps[i], tmp, unzip, parts'[i], states'[i + 1])
    {
      if i < |parts| {
        assert states'[i] == states[i] && states'[i + 1] == states[i + 1] && parts'[i] == parts[i];
      } else {
        assert states'[i] == states[|parts|] && states'[i + 1] == next && parts'[i] == part;
      }
    }
  }

  /**
   * The export collection of verify: the sources in order, each adding its
   * contribution; a jar that cannot be extracted stops the collection.
   */
  method CollectExports(fs: FileSystem, exps: seq<Path>, tmp: Path, unzip: seq<byte> -> Option<seq<Entry>>)
    returns (fs': FileSystem, r: Result<seq<Path>, string>, ghost parts: seq<seq<Path>>, ghost states: seq<FileSystem>)
    requires tmp.names != [] && Valid(fs) && IsDirectory(fs, tmp)
    ensures Valid(fs') && SameOutside(fs, fs', Locate(fs, tmp)) && IsDirectory(fs', tmp)
    ensures Chain(exps, tmp, unzip, parts, states) && states[0] == fs
    ensures r.Success? ==> |parts| == |exps| && fs' == states[|parts|] && r.value == Flatten(parts)
    ensures r.Failure? ==>
              var k := |parts|;
              k < |exps| && !IsDirectory(states[k], exps[k]) && IsFile(states[k], exps[k]) &&
              !IsExpPath(exps[k]) && IsJarPath(exps[k]) &&
              Extract(states[k], exps[k], tmp, unzip) == Extraction(fs', Failure(r.error))
  {
    fs' := fs;
    var expfiles: seq<Path> := [];
    parts, states := [], [fs];
    var i := 0;
    while i < |exps|
      invariant Chain(exps, tmp, unzip, parts, states) && i == |parts| && states[0] == fs && states[i] == fs'
      invariant expfiles == Flatten(parts)
      invariant Valid(fs') && SameOutside(fs, fs', Locate(fs, tmp)) && IsDirectory(fs', tmp)
    {
      var next, part := CollectFrom(fs', exps[i], tmp, unzip);
      if part.Failure? {
        return next, Failure(part.error), parts, states;
      }
      ChainExtend(exps, tmp, unzip, parts, states, part.value, next);
      expfiles := expfiles + part.value;
      parts, states := parts + [part.value], states + [next];
      fs' := next;
      i := i + 1;
    }
    r := Success(expfiles);
  }

  /** Files.createTempDirectory, for the fresh name the platform picks: the directory is made, or IOException. */
  function MakeTemp(fs: FileSystem, tmp: Path): (r: Result<FileSystem, string>)
    requires tmp.names != []
    ensures r.Success? <==> !Exists(fs, tmp) && IsDirectory(fs, Parent(tmp))
    ensures r.Success? ==> r.value == fs.(dirs := fs.dirs + {Locate(fs, tmp)})
  {
    if Exists(fs, tmp) || !IsDirectory(fs, Parent(tmp)) then Failure(TEMP_ERROR)
    else Success(fs.(dirs := fs.dirs + {Locate(fs, tmp)}))
  }

  const TEMP_ERROR := "Can not make temporary folder"
  const RUN_ERROR := "Could not run verifier: "

  /** A fresh temporary directory leaves the tree well formed, and only it is new. */
  lemma MakeTempFrame(fs: FileSystem, tmp: Path)
    requires Valid(fs) && tmp.names != [] && MakeTemp(fs, tmp).Success?
    ensures var fs1 := MakeTemp(fs, tmp).value;
            Valid(fs1) && SameOutside(fs, fs1, Locate(fs, tmp)) && IsDirectory(fs1, tmp) && Absent(fs, Locate(fs, tmp))
  {
    var l := Locate(fs, tmp);
    var fs1 := MakeTemp(fs, tmp).value;
    MissingHasNothingBelow(fs, l);
    var parent := l[..|l| - 1];
    assert Locate(fs, Parent(tmp)) == parent;
    forall d, k | d in fs1.dirs && 0 <= k <= |d| ensures d[..k] in fs1.dirs {
      if d == l && k < |l| {
        assert parent[..k] in fs.dirs;
        assert d[..k] == parent[..k];
      } else if d == l {
        assert d[..k] == l;
      }
    }
  }

  /** How verify ends: normally, with the verifier's VerifierError, or with a RuntimeException. */
  datatype VerifyOutcome = Verified | VerifierError(message: string) | RuntimeError(message: string)

  /** The reflective call of verifyCap: the overload, the CAP file, its package, and the export files. */
  datatype Invocation = Invocation(overload: MethodSig, cap: Path, packageName: string, exportFiles: seq<Path>)

  /** The export list is what the sources contribute, in order, starting from the disk fs. */
  ghost predicate CollectedFrom(fs: FileSystem, exps: seq<Path>, tmp: Path, unzip: seq<byte> -> Option<seq<Entry>>,
                                parts: seq<seq<Path>>, states: seq<FileSystem>, files: seq<Path>)
    requires tmp.names != []
  {
    Chain(exps, tmp, unzip, parts, states) && |parts| == |exps| && states[0] == fs && files == Flatten(parts)
  }

  /**
   * The try block of verify, on a disk that holds the temporary directory:
   * read the CAP, load the verifier class, collect the exports, pick the
   * overload by release and invoke it.
   */
  method RunVerifier(verifier: Verifier, fs: FileSystem, tmp: Path, f: Path, exps: seq<Path>,
                     unzip: seq<byte> -> Option<seq<Entry>>, readCap: seq<byte> -> Option<string>,
                     toolchain: Toolchain, run: Invocation -> Outcome<string>)
    returns (fs': FileSystem, outcome: VerifyOutcome, ghost call: Option<Invocation>,
             ghost parts: seq<seq<Path>>, ghost states: seq<FileSystem>)
    requires tmp.names != [] && Valid(fs) && IsDirectory(fs, tmp)
    ensures Valid(fs') && SameOutside(fs, fs', Locate(fs, tmp))
    ensures call.None? <==> outcome.RuntimeError?
    ensures call.Some? ==>
              outcome == (if run(call.value).Pass? then Verified else VerifierError(run(call.value).error))
    ensures call.Some? ==>
              && IsFile(fs, f) && readCap(fs.files[Locate(fs, f)]) == Some(call.value.packageName)
              && call.value.cap == f
              && toolchain.Some? && call.value.overload in toolchain.value
              && verifier.sdk.Release(toolchain).Success?
              && call.value.overload == OverloadFor(verifier.sdk.Release(toolchain).value)
              && CollectedFrom(fs, exps, tmp, unzip, parts, states, call.value.exportFiles)
  {
    fs' := fs;
    call := None;
    parts, states := [], [fs];
    if !IsFile(fs, f) {
      return fs', RuntimeError(RUN_ERROR + "java.io.FileNotFoundException: " + ToString(f)), call, parts, states;
    }
    var packageName := readCap(fs.files[Locate(fs, f)]);
    if packageName.None? {
      return fs', RuntimeError(RUN_ERROR + "java.io.IOException: not a CAP file"), call, parts, states;
    }
    if toolchain.None? {
      return fs', RuntimeError(RUN_ERROR + "java.lang.ClassNotFoundException"), call, parts, states;
    }
    var collected;
    fs', collected, parts, states := CollectExports(fs, exps, tmp, unzip);
    if collected.Failure? {
      return fs', RuntimeError(RUN_ERROR + collected.error), call, parts, states;
    }
    var release := verifier.sdk.Release(toolchain).value;
    var overload := OverloadFor(release);
    if overload !in toolchain.value {
      return fs', RuntimeError(RUN_ERROR + "java.lang.NoSuchMethodException: verifyCap"), call, parts, states;
    }
    var invocation := Invocation(overload, f, packageName.value, collected.value);
    call := Some(invocation);
    match run(invocation) {
      case Pass => outcome := Verified;
      case Fail(message) => outcome := VerifierError(message);
    }
  }

  /**
   * verify: make the temporary directory, run the try block, and remove the
   * directory in the finally block; the disk ends as it began on every path.
   */
  method Verify(verifier: Verifier, fs: FileSystem, tmp: Path, f: Path, exps: seq<Path>,
                unzip: seq<byte> -> Option<seq<Entry>>, readCap: seq<byte> -> Option<string>,
                toolchain: Toolchain, run: Invocation -> Outcome<string>)
    returns (fs': FileSystem, outcome: VerifyOutcome, ghost call: Option<Invocation>,
             ghost parts: seq<seq<Path>>, ghost states: seq<FileSystem>)
    requires Valid(fs) && tmp.absolute && tmp.names != []
    ensures fs' == fs
    ensures MakeTemp(fs, tmp).Failure? ==> outcome == RuntimeError(TEMP_ERROR) && call.None?
    ensures call.None? <==> outcome.RuntimeError?
    ensures call.Some? ==>
              outcome == (if run(call.value).Pass? then Verified else VerifierError(run(call.value).error))
    ensures call.Some? ==>
              && IsFile(fs, f) && readCap(fs.files[Locate(fs, f)]) == Some(call.value.packageName)
              && call.value.cap == f
              && toolchain.Some? && call.value.overload in toolchain.value
              && verifier.sdk.Release(toolchain).Success?
              && call.value.overload == OverloadFor(verifier.sdk.Release(toolchain).value)
              && MakeTemp(fs, tmp).Success?
              && CollectedFrom(MakeTemp(fs, tmp).value, exps, tmp, unzip, parts, states, call.value.exportFiles)
  {
    parts, states := [], [];
    var made := MakeTemp(fs, tmp);
    if made.Failure? {
      return fs, RuntimeError(TEMP_ERROR), None, parts, states;
    }
    var fs1 := made.value;
    var root := Locate(fs, tmp);
    MakeTempFrame(fs, tmp);
    var fs2;
    fs2, outcome, call, parts, states := RunVerifier(verifier, fs1, tmp, f, exps, unzip, readCap, toolchain, run);
    assert IsFile(fs1, f) ==> IsFile(fs, f) && fs1.files[Locate(fs1, f)] == fs.files[Locate(fs, f)];
    fs' := RemoveTree(fs2, tmp);
    SameOutsideTransitive(fs, fs1, fs2, root);
    SameOutsideTransitive(fs, fs2, fs', root);
    SameOutsideAbsentEqual(fs, fs', root);
  }

  /** verifyAgainst: verify against the caller's exports followed by the target SDK's export directory. */
  method VerifyAgainst(verifier: Verifier, fs: FileSystem, tmp: Path, f: Path, target: Sdk, exps: seq<Path>,
                       unzip: seq<byte> -> Option<seq<Entry>>, readCap: seq<byte> -> Option<string>,
                       toolchain: Toolchain, run: Invocation -> Outcome<string>)
    returns (fs': FileSystem, outcome: VerifyOutcome, ghost call: Option<Invocation>,
             ghost parts: seq<seq<Path>>, ghost states: seq<FileSystem>)
    requires Valid(fs) && tmp.absolute && tmp.names != []
    ensures fs' == fs
    ensures call.None? <==> outcome.RuntimeError?
    ensures call.Some? ==>
              outcome == (if run(call.value).Pass? then Verified else VerifierError(run(call.value).error))
    ensures call.Some? ==>
              MakeTemp(fs, tmp).Success? &&
              CollectedFrom(MakeTemp(fs, tmp).value, ExportsFor(exps, target), tmp, unzip, parts, states,
                            call.value.exportFiles)
  {
    var exports := ExportsFor(exps, target);
    fs', outcome, call, parts, states := Verify(verifier, fs, tmp, f, exports, unzip, readCap, toolchain, run);
  }
}
