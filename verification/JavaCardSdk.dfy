/**
 * A JavaCard SDK installation: which release a directory holds, judged from
 * the marker files and archive entries present, and the jars, export
 * directory, Java level and release string that follow from that release.
 */
module JavaCardSdk {
  import opened Base
  import opened FileSystems

  /** The releases the tool tells apart, in declaration order. */
  datatype Version = NONE | V211 | V212 | V221 | V222 | V301 | V304 | V305 | V310 {

    /** Enum.ordinal. */
    function Ordinal(): nat {
      match this
      case NONE => 0
      case V211 => 1
      case V212 => 2
      case V221 => 3
      case V222 => 4
      case V301 => 5
      case V304 => 6
      case V305 => 7
      case V310 => 8
    }

    /** Enum.name: the constant's identifier. */
    function Name(): string {
      match this
      case NONE => "NONE"
      case V211 => "V211"
      case V212 => "V212"
      case V221 => "V221"
      case V222 => "V222"
      case V301 => "V301"
      case V304 => "V304"
      case V305 => "V305"
      case V310 => "V310"
    }

    /** The dotted release number; "unknown" for NONE. */
    function ToString(): (s: string)
      ensures this == NONE ==> s == "unknown"
      ensures this != NONE ==> |s| == 5 && s[1] == '.' && s[3] == '.' && s[0] == Name()[1] && s[2] == Name()[2] && s[4] == Name()[3]
    {
      if this == V310 then "3.1.0"
      else if this == V305 then "3.0.5"
      else if this == V304 then "3.0.4"
      else if this == V301 then "3.0.1"
      else if this == V222 then "2.2.2"
      else if this == V221 then "2.2.1"
      else if this == V212 then "2.1.2"
      else if this == V211 then "2.1.1"
      else "unknown"
    }

    /** The releases of the 3.x line, told by the constant's name. */
    function IsV3(): (b: bool)
      ensures b <==> this in {V301, V304, V305, V310}
    {
      var n := Name();
      assert n[..2] == [n[0], n[1]];
      StartsWith(n, "V3")
    }

    /** isOneOf: a scan of the candidates for one equal to this. */
    method IsOneOf(versions: seq<Version>) returns (found: bool)
      ensures found <==> this in versions
    {
      var i := 0;
      while i < |versions|
        invariant 0 <= i <= |versions|
        invariant forall j :: 0 <= j < i ==> versions[j] != this
      {
        if versions[i] == this {
          return true;
        }
        i := i + 1;
      }
      return false;
    }
  }

  // Marker files and archive entries the detection looks for.
  const TOOLS_JAR := "tools.jar"
  const API_CLASSIC_310_JAR := "api_classic-3.1.0.jar"
  const API_CLASSIC_JAR := "api_classic.jar"
  const API21_JAR := "api21.jar"
  const API_JAR := "api.jar"
  const CONVERTER_JAR := "converter.jar"
  const OFFCARDVERIFIER_JAR := "offcardverifier.jar"
  const API_CLASSIC_ANNOTATIONS_JAR := "api_classic_annotations.jar"
  const API_CLASSIC_ANNOTATIONS_310_JAR := "api_classic_annotations-3.1.0.jar"
  const SENSITIVE_ARRAYS_CLASS := "javacard/framework/SensitiveArrays.class"
  const STRING_UTIL_CLASS := "javacardx/framework/string/StringUtil.class"
  const EXTENDED_LENGTH_CLASS := "javacardx/apdu/ExtendedLength.class"

  /** A zip archive that could not be opened: the RuntimeException wrapping the IOException. */
  const ZIP_ERROR := "java.io.IOException: cannot open archive"

  /**
   * detectSDKVersion: the first marker that matches decides. None when no
   * marker matches; Failure when an archive that must be opened cannot be.
   */
  function DetectVersion(fs: FileSystem, root: Path, unzip: seq<byte> -> Option<seq<Entry>>): (r: Result<Option<Version>, string>)
    ensures r.Success? && r.value.Some? ==> r.value.value != NONE
    ensures r == Success(None) <==>
              && !Exists(fs, Child(Child(root, "lib"), TOOLS_JAR))
              && !Exists(fs, Child(Child(root, "lib"), API21_JAR))
              && !Exists(fs, Child(Child(root, "bin"), API_JAR))
              && !Exists(fs, Child(Child(root, "lib"), CONVERTER_JAR))
  {
    var lib := Child(root, "lib");
    if Exists(fs, Child(lib, TOOLS_JAR)) then
      if Exists(fs, Child(lib, API_CLASSIC_310_JAR)) then Success(Some(V310))
      else
        match OpenArchive(fs, Child(lib, API_CLASSIC_JAR), unzip)
        case None => Failure(ZIP_ERROR)
        case Some(entries) =>
          if HasEntry(entries, SENSITIVE_ARRAYS_CLASS) then Success(Some(V305))
          else if HasEntry(entries, STRING_UTIL_CLASS) then Success(Some(V304))
          else Success(Some(V301))
    else if Exists(fs, Child(lib, API21_JAR)) then Success(Some(V212))
    else if Exists(fs, Child(Child(root, "bin"), API_JAR)) then Success(Some(V211))
    else if Exists(fs, Child(lib, CONVERTER_JAR)) then
      match OpenArchive(fs, Child(lib, API_JAR), unzip)
      case None => Failure(ZIP_ERROR)
      case Some(entries) =>
        if HasEntry(entries, EXTENDED_LENGTH_CLASS) then Success(Some(V222)) else Success(Some(V221))
    else Success(None)
  }

  /** With lib/tools.jar present the result is a 3.x release, whatever other markers exist. */
  lemma ToolsJarDecides(fs: FileSystem, root: Path, unzip: seq<byte> -> Option<seq<Entry>>)
    requires Exists(fs, Child(Child(root, "lib"), TOOLS_JAR))
    ensures var r := DetectVersion(fs, root, unzip);
            r.Success? ==> r.value.Some? && r.value.value.IsV3()
    ensures DetectVersion(fs, root, unzip).Failure? <==>
              !Exists(fs, Child(Child(root, "lib"), API_CLASSIC_310_JAR)) &&
              OpenArchive(fs, Child(Child(root, "lib"), API_CLASSIC_JAR), unzip).None?
  {
  }

  /** Inside the tools.jar branch: 3.1.0 jar, then SensitiveArrays, then StringUtil, then 3.0.1. */
  lemma ToolsBranchOrder(fs: FileSystem, root: Path, unzip: seq<byte> -> Option<seq<Entry>>)
    requires Exists(fs, Child(Child(root, "lib"), TOOLS_JAR))
    ensures Exists(fs, Child(Child(root, "lib"), API_CLASSIC_310_JAR)) ==> DetectVersion(fs, root, unzip) == Success(Some(V310))
    ensures var api := OpenArchive(fs, Child(Child(root, "lib"), API_CLASSIC_JAR), unzip);
            !Exists(fs, Child(Child(root, "lib"), API_CLASSIC_310_JAR)) && api.Some? ==>
              && (HasEntry(api.value, SENSITIVE_ARRAYS_CLASS) ==> DetectVersion(fs, root, unzip) == Success(Some(V305)))
              && (!HasEntry(api.value, SENSITIVE_ARRAYS_CLASS) && HasEntry(api.value, STRING_UTIL_CLASS) ==>
                    DetectVersion(fs, root, unzip) == Success(Some(V304)))
              && (!HasEntry(api.value, SENSITIVE_ARRAYS_CLASS) && !HasEntry(api.value, STRING_UTIL_CLASS) ==>
                    DetectVersion(fs, root, unzip) == Success(Some(V301)))
  {
  }

  /** Without tools.jar: api21.jar means 2.1.2, then bin/api.jar means 2.1.1; converter.jar needs api.jar to open. */
  lemma LegacyBranches(fs: FileSystem, root: Path, unzip: seq<byte> -> Option<seq<Entry>>)
    requires !Exists(fs, Child(Child(root, "lib"), TOOLS_JAR))
    ensures Exists(fs, Child(Child(root, "lib"), API21_JAR)) ==> DetectVersion(fs, root, unzip) == Success(Some(V212))
    ensures !Exists(fs, Child(Child(root, "lib"), API21_JAR)) && Exists(fs, Child(Child(root, "bin"), API_JAR)) ==>
              DetectVersion(fs, root, unzip) == Success(Some(V211))
    ensures !Exists(fs, Child(Child(root, "lib"), API21_JAR)) && !Exists(fs, Child(Child(root, "bin"), API_JAR)) &&
            Exists(fs, Child(Child(root, "lib"), CONVERTER_JAR)) ==>
              (DetectVersion(fs, root, unzip).Failure? <==> OpenArchive(fs, Child(Child(root, "lib"), API_JAR), unzip).None?)
  {
  }

  /** The converter.jar branch: 2.2.2 exactly when api.jar holds ExtendedLength, else 2.2.1. */
  lemma ConverterBranch(fs: FileSystem, root: Path, unzip: seq<byte> -> Option<seq<Entry>>, entries: seq<Entry>)
    requires !Exists(fs, Child(Child(root, "lib"), TOOLS_JAR))
    requires !Exists(fs, Child(Child(root, "lib"), API21_JAR))
    requires !Exists(fs, Child(Child(root, "bin"), API_JAR))
    requires Exists(fs, Child(Child(root, "lib"), CONVERTER_JAR))
    requires OpenArchive(fs, Child(Child(root, "lib"), API_JAR), unzip) == Some(entries)
    ensures DetectVersion(fs, root, unzip) == Success(Some(V222)) <==> HasEntry(entries, EXTENDED_LENGTH_CLASS)
    ensures DetectVersion(fs, root, unzip) == Success(Some(V221)) <==> !HasEntry(entries, EXTENDED_LENGTH_CLASS)
  {
  }

  /** A method signature the verifier class may declare: its name and parameter types. */
  datatype MethodSig = MethodSig(name: string, params: seq<string>)

  const VERIFY_TARGET_PLATFORM := MethodSig("verifyTargetPlatform", ["java.lang.String"])
  const VERIFY_CAP_STREAM := MethodSig("verifyCap", ["java.io.FileInputStream", "java.lang.String", "java.util.Vector"])
  const VERIFY_CAP_FILE := MethodSig("verifyCap", ["java.io.File", "java.lang.String", "java.util.Vector"])

  /**
   * What reflection finds through the SDK's class loader: the methods of the
   * verifier class, or None when the class cannot be loaded.
   */
  type Toolchain = Option<set<MethodSig>>

  /** An installation: its root directory and its release. */
  datatype Sdk = Sdk(root: Path, version: Version) {

    /** getJar: a file in the lib directory. */
    function GetJar(name: string): (p: Path)
      ensures p.absolute == root.absolute && p.names == root.names + ["lib", name]
    {
      Child(Child(root, "lib"), name)
    }

    /** getJavaVersion: the newest class-file level the converter accepts. */
    function JavaVersion(): (s: string)
      ensures |s| == 3 && s[..2] == "1."
      ensures version.IsV3() ==> s[2] >= '6'
      ensures version.Ordinal() <= V212.Ordinal() ==> s == "1.1"
    {
      match version
      case V310 => "1.7"
      case V301 | V304 | V305 => "1.6"
      case V222 => "1.5"
      case V221 => "1.2"
      case _ => "1.1"
    }

    /** The jar the class loader is built over: tools.jar for 3.x, else offcardverifier.jar. */
    function ClassLoaderJar(): (p: Path)
      ensures p.absolute == root.absolute && |p.names| == |root.names| + 2
      ensures p.names[..|root.names|] == root.names && p.names[|root.names|] == "lib"
      ensures version in {V301, V304, V305, V310} ==> p.names[|root.names| + 1] == TOOLS_JAR
      ensures version !in {V301, V304, V305, V310} ==> p.names[|root.names| + 1] == OFFCARDVERIFIER_JAR
    {
      if version.IsV3() then GetJar(TOOLS_JAR) else GetJar(OFFCARDVERIFIER_JAR)
    }

    /**
     * getRelease: the update level of a 3.0.5 SDK, probed through the
     * verifier's methods; the dotted release number for every other SDK.
     */
    function Release(toolchain: Toolchain): (r: Result<string, string>)
      ensures version != V305 ==> r == Success(version.ToString())
      ensures version == V305 && toolchain.None? ==> r.Failure?
      ensures version == V305 && toolchain.Some? ==>
                r == Success(if VERIFY_TARGET_PLATFORM in toolchain.value then "3.0.5u3"
                             else if VERIFY_CAP_STREAM in toolchain.value then "3.0.5u1"
                             else "3.0.5u2")
    {
      if version == V305 then
        match toolchain
        case None => Failure("Could not figure out SDK release: java.lang.ClassNotFoundException")
        case Some(methods) =>
          if VERIFY_TARGET_PLATFORM in methods then Success("3.0.5u3")
          else if VERIFY_CAP_STREAM in methods then Success("3.0.5u1")
          else Success("3.0.5u2")
      else Success(version.ToString())
    }

    /** getApiJars: the list built by the switch, with V310 falling through into default. */
    method ApiJars() returns (jars: seq<Path>)
      ensures |jars| >= 1
      ensures version == V211 ==> jars == [Child(Child(root, "bin"), API_JAR)]
      ensures version == V212 ==> jars == [GetJar(API21_JAR)]
      ensures version == V301 ==> jars == [GetJar(API_CLASSIC_JAR)]
      ensures version in {V304, V305} ==> jars == [GetJar(API_CLASSIC_JAR), GetJar(API_CLASSIC_ANNOTATIONS_JAR)]
      ensures version == V310 ==>
                jars == [GetJar(API_CLASSIC_310_JAR), GetJar(API_CLASSIC_ANNOTATIONS_310_JAR), GetJar(API_JAR)]
      ensures version in {NONE, V221, V222} ==> jars == [GetJar(API_JAR)]
    {
      jars := [];
      match version {
        case V211 =>
          jars := jars + [Child(Child(root, "bin"), API_JAR)];
        case V212 =>
          jars := jars + [GetJar(API21_JAR)];
        case V301 | V304 | V305 =>
          jars := jars + [GetJar(API_CLASSIC_JAR)];
        case _ =>
          if version == V310 {
            jars := jars + [GetJar(API_CLASSIC_310_JAR)];
            jars := jars + [GetJar(API_CLASSIC_ANNOTATIONS_310_JAR)];
          }
          jars := jars + [GetJar(API_JAR)];
      }
      if version == V304 || version == V305 {
        jars := jars + [GetJar(API_CLASSIC_ANNOTATIONS_JAR)];
      }
    }

    /** getExportDir. */
    function ExportDir(): (p: Path)
      ensures p.absolute == root.absolute && |p.names| == |root.names| + 1 && p.names[..|root.names|] == root.names
      ensures version == V212 <==> p == Child(root, "api21_export_files")
      ensures version == V310 <==> p == Child(root, "api_export_files_3.1.0")
      ensures version !in {V212, V310} ==> p == Child(root, "api_export_files")
    {
      match version
      case V212 => Child(root, "api21_export_files")
      case V310 => Child(root, "api_export_files_3.1.0")
      case _ => Child(root, "api_export_files")
    }

    /** getToolJars. */
    method ToolJars() returns (jars: seq<Path>)
      ensures version == V211 ==> jars == [Child(Child(root, "bin"), CONVERTER_JAR)]
      ensures version.IsV3() ==> jars == [GetJar(TOOLS_JAR)]
      ensures version != V211 && !version.IsV3() ==> jars == [GetJar(CONVERTER_JAR), GetJar(OFFCARDVERIFIER_JAR)]
    {
      jars := [];
      var legacy := version.IsOneOf([V211]);
      if legacy {
        jars := jars + [Child(Child(root, "bin"), CONVERTER_JAR)];
      } else if version.IsV3() {
        jars := jars + [GetJar(TOOLS_JAR)];
      } else {
        jars := jars + [GetJar(CONVERTER_JAR)];
        jars := jars + [GetJar(OFFCARDVERIFIER_JAR)];
      }
    }

    /** getCompilerJars: only 3.0.4 needs extra jars on the compiler's class path. */
    method CompilerJars() returns (jars: seq<Path>)
      ensures version == V304 ==> jars == [GetJar(TOOLS_JAR), GetJar(API_CLASSIC_ANNOTATIONS_JAR)]
      ensures version != V304 ==> jars == []
    {
      jars := [];
      if version == V304 {
        jars := jars + [GetJar(TOOLS_JAR)];
        jars := jars + [GetJar(API_CLASSIC_ANNOTATIONS_JAR)];
      }
    }

    /** equals: same absolute root path and same release; equal SDKs locate the same folder. */
    predicate Equals(fs: FileSystem, other: Sdk): (b: bool)
      ensures other == this ==> b
      ensures b ==> version == other.version && IsDirectory(fs, root) == IsDirectory(fs, other.root)
    {
      Locate(fs, root) == Locate(fs, other.root) && version == other.version
    }

    /** hashCode as written: File.hashCode of the root as given, on Unix. */
    function HashCodeAsWritten(): (h: int)
      ensures 0 <= h < TWO_POW_32
    {
      FileHash(root)
    }

    /** hashCode hashing the absolute root, which is what equals compares. */
    function HashCode(fs: FileSystem): (h: int)
      ensures 0 <= h < TWO_POW_32
      ensures h == FileHash(Path(true, Locate(fs, root)))
    {
      FileHash(Path(true, Locate(fs, root)))
    }
  }

  /** File.hashCode on Unix: the path string's hash, exclusive-or 1234321. */
  function FileHash(p: Path): (h: int)
    ensures 0 <= h < TWO_POW_32
  {
    Xor32(StringHash(ToString(p)), 1234321)
  }

  /**
   * detectSDK: None (Java's null) for a missing or blank path, a path that is
   * not a directory, or a directory no marker matches.
   */
  function DetectSdk(path: Option<string>, fs: FileSystem, unzip: seq<byte> -> Option<seq<Entry>>): (r: Result<Option<Sdk>, string>)
    ensures path.None? || IsBlank(path.value) ==> r == Success(None)
    ensures path.Some? && !IsBlank(path.value) && !IsDirectory(fs, ParsePath(path.value)) ==> r == Success(None)
    ensures r.Success? && r.value.Some? ==>
              path.Some? && r.value.value.root == ParsePath(path.value) && IsDirectory(fs, r.value.value.root) &&
              DetectVersion(fs, r.value.value.root, unzip) == Success(Some(r.value.value.version))
    ensures path.Some? && !IsBlank(path.value) && IsDirectory(fs, ParsePath(path.value)) ==>
              (r.Success? && r.value.None? <==> DetectVersion(fs, ParsePath(path.value), unzip) == Success(None))
  {
    if path.None? || IsBlank(path.value) then Success(None)
    else
      var root := ParsePath(path.value);
      if !IsDirectory(fs, root) then Success(None)
      else
        match DetectVersion(fs, root, unzip)
        case Failure(e) => Failure(e)
        case Success(None) => Success(None)
        case Success(Some(v)) => Success(Some(Sdk(root, v)))
  }

  /** getJavaVersion never decreases along the release order V211 .. V310. */
  lemma JavaVersionMonotone(root: Path, a: Version, b: Version)
    requires V211.Ordinal() <= a.Ordinal() <= b.Ordinal()
    ensures Sdk(root, a).JavaVersion()[2] <= Sdk(root, b).JavaVersion()[2]
  {
  }

  /** Equal SDKs hash alike once hashCode uses the absolute root. */
  lemma EqualSdksHashAlike(fs: FileSystem, a: Sdk, b: Sdk)
    requires a.Equals(fs, b)
    ensures a.HashCode(fs) == b.HashCode(fs)
    ensures b.Equals(fs, a)
  {
  }

  /**
   * As written, a relative root and the absolute path it resolves to make two
   * SDKs that are equal yet hash differently.
   */
  lemma EqualSdksHashApartAsWritten()
    ensures var fs := FileSystem([], {[], ["x"]}, map[]);
            var a := Sdk(Path(false, ["x"]), V305);
            var b := Sdk(Path(true, ["x"]), V305);
            a.Equals(fs, b) && a.HashCodeAsWritten() != b.HashCodeAsWritten()
  {
    var a := Sdk(Path(false, ["x"]), V305);
    var b := Sdk(Path(true, ["x"]), V305);
    assert ToString(a.root) == "x";
    assert ToString(b.root) == "/x";
    HashOfShortNames();
    assert Xor32(120, 1234321) == 1234409;
    assert Xor32(1577, 1234321) == 1233848;
  }

  lemma HashOfShortNames()
    ensures StringHash("x") == 120 && StringHash("/x") == 1577
  {
    assert seq(1, i requires 0 <= i < 1 => "x"[i] as int) == [120];
    assert seq(2, i requires 0 <= i < 2 => "/x"[i] as int) == [47, 120];
    assert Hash31(0, [47, 120]) == Hash31(47, [120]);
  }
}
