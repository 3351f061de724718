/**
 * The command line front end: the "-v" flag is taken out of the argument
 * vector in place, an SDK is looked up from JC_HOME when verifying, and the
 * remaining arguments are the CAP files to process.
 */
module CapFileTool {
  import opened Base
  import opened FileSystems
  import opened JavaCardSdk
  import opened OffCardVerifier

  /** Vector.indexOf: the first index holding o, or -1. */
  function IndexOf(xs: seq<string>, o: string): (i: int)
    ensures -1 <= i < |xs|
    ensures i == -1 <==> o !in xs
    ensures i >= 0 ==> xs[i] == o && o !in xs[..i]
  {
    if xs == [] then -1
    else if xs[0] == o then 0
    else
      var j := IndexOf(xs[1..], o);
      if j == -1 then -1 else j + 1
  }

  /** The sequence without its element at i, the others in their order. */
  function RemoveAt(xs: seq<string>, i: nat): seq<string>
    requires i < |xs|
  {
    xs[..i] + xs[i + 1..]
  }

  /** The first index whose element equalsIgnoreCase v, or -1. */
  function IndexOfIgnoreCase(xs: seq<string>, v: string): (i: int)
    ensures -1 <= i < |xs|
    ensures i >= 0 ==> EqualsIgnoreCase(xs[i], v)
    ensures forall j :: 0 <= j < |xs| && (i == -1 || j < i) ==> !EqualsIgnoreCase(xs[j], v)
  {
    if xs == [] then -1
    else if EqualsIgnoreCase(xs[0], v) then 0
    else
      var j := IndexOfIgnoreCase(xs[1..], v);
      if j == -1 then -1 else j + 1
  }

  /** The argument Vector, which has removes from in place. */
  class ArgVector {
    var elems: seq<string>

    constructor (argv: seq<string>)
      ensures elems == argv
    {
      elems := argv;
    }

    /** Vector.remove(Object): drop the first element equal to o; false if there is none. */
    method Remove(o: string) returns (removed: bool)
      modifies this
      ensures removed <==> o in old(elems)
      ensures removed ==> elems == RemoveAt(old(elems), IndexOf(old(elems), o))
      ensures !removed ==> elems == old(elems)
    {
      var i := IndexOf(elems, o);
      if i < 0 {
        return false;
      }
      elems := RemoveAt(elems, i);
      return true;
    }
  }

  /**
   * has: scan for an element equalsIgnoreCase v; remove the first one found
   * and report true, or leave the vector alone and report false.
   */
  method Has(args: ArgVector, v: string) returns (found: bool)
    modifies args
    ensures found <==> IndexOfIgnoreCase(old(args.elems), v) >= 0
    ensures found ==> args.elems == RemoveAt(old(args.elems), IndexOfIgnoreCase(old(args.elems), v))
    ensures !found ==> args.elems == old(args.elems)
  {
    var i := 0;
    while i < |args.elems|
      invariant 0 <= i <= |args.elems| && args.elems == old(args.elems)
      invariant forall j :: 0 <= j < i ==> !EqualsIgnoreCase(args.elems[j], v)
    {
      var s := args.elems[i];
      if EqualsIgnoreCase(s, v) {
        assert IndexOf(args.elems, s) == i by {
          assert s !in args.elems[..i];
        }
        var removed := args.Remove(s);
        return true;
      }
      i := i + 1;
    }
    return false;
  }

  /** has removes a single match: a later element that also matches stays in place. */
  lemma SecondMatchStays(xs: seq<string>, v: string, i: nat, j: nat)
    requires i < j < |xs| && EqualsIgnoreCase(xs[i], v) && EqualsIgnoreCase(xs[j], v)
    ensures var k := IndexOfIgnoreCase(xs, v);
            0 <= k <= i && 0 <= IndexOfIgnoreCase(RemoveAt(xs, k), v) < j
  {
    var k := IndexOfIgnoreCase(xs, v);
    assert RemoveAt(xs, k)[j - 1] == xs[j];
  }

  /** The removal keeps every other element, in order, and takes out exactly the match. */
  lemma RemoveAtKeepsOthers(xs: seq<string>, k: nat)
    requires k < |xs|
    ensures |RemoveAt(xs, k)| == |xs| - 1
    ensures forall j :: 0 <= j < k ==> RemoveAt(xs, k)[j] == xs[j]
    ensures forall j :: k < j < |xs| ==> RemoveAt(xs, k)[j - 1] == xs[j]
    ensures multiset(RemoveAt(xs, k)) + multiset{xs[k]} == multiset(xs)
  {
    assert xs == xs[..k] + [xs[k]] + xs[k + 1..];
  }

  const VERIFY_FLAG := "-v"
  const USAGE := "capfile [-v] <file ...>"
  const NO_JC_HOME := "You need to point $JC_HOME to a JavaCard SDK to verify CAP files!"
  const NO_SDK := "Could not fetect a valid JavaCard SDK in $JC_HOME: "

  /**
   * Where the start of main leads: fail(message) with exit status 1, an
   * uncaught RuntimeException, or on to the CAP files with the verifier
   * when "-v" was given.
   */
  datatype Start = Exit(message: string) | Crash(message: string) | Proceed(files: seq<string>, verifier: Option<Verifier>)

  /**
   * The "-v" branch of main: JC_HOME must be set, must hold a detectable SDK,
   * and withSDK must accept it; each failure is where main stops.
   */
  function SetupVerifier(jcHome: Option<string>, fs: FileSystem, unzip: seq<byte> -> Option<seq<Entry>>,
                         toolchain: Toolchain): (r: Result<Verifier, Start>)
    ensures jcHome.None? ==> r == Failure(Exit(NO_JC_HOME))
    ensures jcHome.Some? && DetectSdk(jcHome, fs, unzip).Failure? ==> r == Failure(Crash(DetectSdk(jcHome, fs, unzip).error))
    ensures jcHome.Some? && DetectSdk(jcHome, fs, unzip) == Success(None) ==> r == Failure(Exit(NO_SDK + jcHome.value))
    ensures r.Failure? ==> !r.error.Proceed?
    ensures r.Success? <==>
              jcHome.Some? && DetectSdk(jcHome, fs, unzip).Success? && DetectSdk(jcHome, fs, unzip).value.Some? &&
              WithSdk(DetectSdk(jcHome, fs, unzip).value.value, toolchain).Success?
    ensures r.Success? ==> r.value.sdk == DetectSdk(jcHome, fs, unzip).value.value
  {
    if jcHome.None? then Failure(Exit(NO_JC_HOME))
    else
      match DetectSdk(jcHome, fs, unzip)
      case Failure(e) => Failure(Crash(e))
      case Success(None) => Failure(Exit(NO_SDK + jcHome.value))
      case Success(Some(sdk)) =>
        match WithSdk(sdk, toolchain)
        case Failure(e) => Failure(Crash(e))
        case Success(verifier) => Success(verifier)
  }

  /**
   * main after has: set up the verifier when the flag was found, then insist
   * on at least one file.
   */
  method AfterFlag(args: seq<string>, verify: bool, jcHome: Option<string>, fs: FileSystem,
                 unzip: seq<byte> -> Option<seq<Entry>>, toolchain: Toolchain) returns (s: Start)
    ensures !verify ==> s == if args == [] then Exit(USAGE) else Proceed(args, None)
    ensures verify ==>
              match SetupVerifier(jcHome, fs, unzip, toolchain)
              case Failure(stop) => s == stop
              case Success(verifier) => s == if args == [] then Exit(USAGE) else Proceed(args, Some(verifier))
  {
    var verifier: Option<Verifier> := None;
    if verify {
      var setup := SetupVerifier(jcHome, fs, unzip, toolchain);
      if setup.Failure? {
        return setup.error;
      }
      verifier := Some(setup.value);
    }
    if |args| < 1 {
      return Exit(USAGE);
    }
    return Proceed(args, verifier);
  }

  /**
   * Where main goes for these arguments, given how the verifier setup would
   * end (a failed setup stops main, so it never proceeds).
   */
  function Started(argv: seq<string>, setup: Result<Verifier, Start>): (s: Start)
    requires setup.Failure? ==> !setup.error.Proceed?
    ensures s.Proceed? ==> 1 <= |s.files| <= |argv| && multiset(s.files) <= multiset(argv)
  {
    var k := IndexOfIgnoreCase(argv, VERIFY_FLAG);
    if k < 0 then
      if argv == [] then Exit(USAGE) else Proceed(argv, None)
    else
      match setup
      case Failure(stop) => stop
      case Success(verifier) =>
        if |argv| == 1 then Exit(USAGE)
        else
          RemoveAtKeepsOthers(argv, k);
          Proceed(RemoveAt(argv, k), Some(verifier))
  }

  /**
   * The files main goes on with are the arguments minus the first "-v" (in
   * any case), never none; the verifier is there exactly when the flag was.
   */
  lemma StartedProceeds(argv: seq<string>, setup: Result<Verifier, Start>)
    requires setup.Failure? ==> !setup.error.Proceed?
    ensures var s := Started(argv, setup);
            var k := IndexOfIgnoreCase(argv, VERIFY_FLAG);
            s.Proceed? ==>
              && s.files == (if k >= 0 then RemoveAt(argv, k) else argv)
              && |s.files| >= 1
              && (s.verifier.Some? <==> k >= 0)
              && (k >= 0 ==> s.verifier == Some(setup.value))
  {
    var k := IndexOfIgnoreCase(argv, VERIFY_FLAG);
    if k >= 0 && setup.Success? {
      assert |RemoveAt(argv, k)| == |argv| - 1;
    }
  }

  /** The usage message: no arguments at all, or only the flag. */
  lemma StartedUsage(argv: seq<string>, setup: Result<Verifier, Start>)
    requires setup.Failure? ==> !setup.error.Proceed?
    ensures var k := IndexOfIgnoreCase(argv, VERIFY_FLAG);
            (k < 0 || setup.Success?) ==>
              (Started(argv, setup) == Exit(USAGE) <==> argv == [] || (k >= 0 && |argv| == 1))
  {
  }

  /** With the flag, a failed setup is where main stops, before the usage check. */
  lemma StartedSetupFails(argv: seq<string>, setup: Result<Verifier, Start>)
    requires IndexOfIgnoreCase(argv, VERIFY_FLAG) >= 0 && setup.Failure?
    requires !setup.error.Proceed?
    ensures Started(argv, setup) == setup.error
  {
  }

  /** The start of main, up to the loop over the files; JC_HOME is passed in. */
  method StartTool(argv: seq<string>, jcHome: Option<string>, fs: FileSystem,
                   unzip: seq<byte> -> Option<seq<Entry>>, toolchain: Toolchain) returns (s: Start)
    ensures s == Started(argv, SetupVerifier(jcHome, fs, unzip, toolchain))
  {
    var args := new ArgVector(argv);
    var verify := Has(args, VERIFY_FLAG);
    assert verify ==> |args.elems| == |argv| - 1;
    s := AfterFlag(args.elems, verify, jcHome, fs, unzip, toolchain);
  }
}
