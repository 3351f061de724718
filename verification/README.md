# capfile core, modelled in Dafny

This project models the core of `capfile`, a tool for Java Card CAP files:

- **AID values** (`Aids.dfy`): application identifiers of 5 to 16 bytes, built from byte ranges or hex text, compared and hashed byte for byte.
- **Well-known AID registry** (`WellKnownAids.dfy`): the 15 platform package AIDs and the lookup from AID to package name.
- **SDK detection** (`JavaCardSdk.dfy`): recognising a Java Card SDK from the marker files in its `lib/` and `bin/` folders, and what it derives from the version:
  - the Java version,
  - the release string,
  - the API, tool and compiler jars,
  - the export directory,
  - `equals`/`hashCode`.
- **Off-card verification** (`OffCardVerifier.dfy`):
  - the SDK guard;
  - the collection of export files from directories, `.exp` files and jars (jar entries are extracted into a temporary directory through a buffered copy, `Streams.dfy`);
  - the choice of the `verifyCap` overload by release;
  - removal of the temporary directory on every path.
- **DAP signing** (`CapFileSigner.dfy`): a private key's type and size decide which two `META-INF/` signature entries are written into a CAP file's entry map.
- **Command line** (`CapFileTool.dfy`): removing the `-v` flag from the argument vector in place, and the checks at the start of `main`.

The disk is a value (`FileSystems.dfy`): a working directory, a set of directory locations and a map from file locations to their bytes. Operations that touch the disk take one and return the next. `Valid` says the tree is well formed. `SameOutside` says two disks agree everywhere outside one directory. These are the invariants the verification code keeps.

Things outside the core are passed in as parameters:

- The jar/zip reader is `unzip`.
- Reflection on the SDK's verifier class is a `Toolchain`: the set of method signatures the class declares, or `None` when the class cannot be loaded.
- The verifier's own verdict is `run`.
- Hashing and signing are `hash` and `sign`.
- The `JC_HOME` environment variable is `jcHome`.
- The CAP reader is `readCap`.

## Model

| member | source | states |
|---|---|---|
| Aids.FromRange | src/main/java/pro/javacard/AID.java:16-21 | construction succeeds iff the length is 5..16 (and the offset is inside the array); a bad length gives the length error; the bytes are exactly the range, zero-padded past the end like Arrays.copyOfRange |
| Aids.FromBytes | src/main/java/pro/javacard/AID.java:8-10 | the whole array: succeeds iff 5..16 bytes, and then holds exactly those bytes |
| Aids.FromHex | src/main/java/pro/javacard/AID.java:12-14 | text the decoder refuses is an error; otherwise the AID holds the decoded bytes iff there are 5..16 of them |
| Aids.FromString | src/main/java/pro/javacard/AID.java:23-28 | any argument that is not a String is refused before decoding; a String is decoded as hex |
| Aids.Aid.Length | src/main/java/pro/javacard/AID.java:34-36 | getLength is the number of the AID's bytes |
| Aids.Aid.GetBytes | src/main/java/pro/javacard/AID.java:30-32 | returns a fresh array with the AID's bytes, so writing to it cannot change the AID |
| Aids.Aid.HashCode | src/main/java/pro/javacard/AID.java:43-46 | Arrays.hashCode over the signed bytes, reduced to 32 bits |
| Aids.Aid.Equals | src/main/java/pro/javacard/AID.java:48-54 | an AID equals itself; anything equal to it is an AID with the same bytes; a non-AID argument is never equal |
| Aids.CopyOfRange | src/main/java/pro/javacard/AID.java:20 | the copied range has length to-from, with each position taken from the source or zero past its end |
| Aids.ConstructedLengthInBounds | src/main/java/pro/javacard/AID.java:17-20 | every constructed AID has getLength() between 5 and 16 |
| Aids.EqualsMeansSameBytes | src/main/java/pro/javacard/AID.java:43-54 | equals holds iff the bytes are equal; it is symmetric, and equal AIDs have equal hash codes |
| Aids.StructuralIdentity | src/main/java/pro/javacard/AID.java:8-10 | two AIDs built from byte arrays are equal iff the arrays hold the same bytes |
| WellKnownAids.KeysAreValidAids | src/main/java/pro/javacard/WellKnownAID.java:35-53 | there are 15 keys, each a legal AID of 6 to 9 bytes, so no put can throw on length |
| WellKnownAids.KeysAreDistinct | src/main/java/pro/javacard/WellKnownAID.java:35-53 | no two registrations share a key, so no put overwrites an earlier one |
| WellKnownAids.KeysUpToMembers | src/main/java/pro/javacard/WellKnownAID.java:35-53 | after the first k puts, the map's keys are exactly the first k registered AIDs |
| WellKnownAids.PutStep | src/main/java/pro/javacard/WellKnownAID.java:35-53 | each put adds its own registration and disturbs none of the earlier ones |
| WellKnownAids.Registry.constructor | src/main/java/pro/javacard/WellKnownAID.java:30-54 | the static initializer leaves exactly the 15 registrations in the map |
| WellKnownAids.Registry.GetName | src/main/java/pro/javacard/WellKnownAID.java:57-59 | the registered name for each of the 15 AIDs, and null (None) for every other AID |
| WellKnownAids.Registry.LookupIsExact | src/main/java/pro/javacard/WellKnownAID.java:38-49 | keys that are prefixes of other keys do not shadow them in either direction, and a 6-byte prefix of a key finds nothing |
| WellKnownAids.Registry.FreshAidFindsEntry | src/main/java/pro/javacard/WellKnownAID.java:57-59 | a freshly built AID with a registered key's bytes finds that key's name |
| JavaCardSdk.Version.ToString | src/main/java/pro/javacard/JavaCardSDK.java:251-269 | "unknown" exactly for NONE; otherwise the dotted form of the digits in the constant's name |
| JavaCardSdk.Version.IsV3 | src/main/java/pro/javacard/JavaCardSDK.java:271-273 | true exactly for V301, V304, V305 and V310 |
| JavaCardSdk.Version.IsOneOf | src/main/java/pro/javacard/JavaCardSDK.java:275-280 | the loop reports true iff the version is among the arguments |
| JavaCardSdk.DetectVersion | src/main/java/pro/javacard/JavaCardSDK.java:60-97 | a detected version is never NONE; no version (null) is detected iff none of lib/tools.jar, lib/api21.jar, bin/api.jar and lib/converter.jar exists |
| JavaCardSdk.ToolsJarDecides | src/main/java/pro/javacard/JavaCardSDK.java:63-82 | when lib/tools.jar exists, the result is V310, V305, V304 or V301 (or the zip error), whatever else is present |
| JavaCardSdk.ToolsBranchOrder | src/main/java/pro/javacard/JavaCardSDK.java:64-74 | inside the tools.jar branch: V310 if api_classic-3.1.0.jar exists; otherwise, when api_classic.jar opens, V305 if SensitiveArrays is present, else V304 if StringUtil is present, else V301 |
| JavaCardSdk.LegacyBranches | src/main/java/pro/javacard/JavaCardSDK.java:78-94 | without tools.jar: V212 if lib/api21.jar exists, else V211 if bin/api.jar exists; in the converter.jar branch the result is the zip error iff lib/api.jar cannot be opened |
| JavaCardSdk.ConverterBranch | src/main/java/pro/javacard/JavaCardSDK.java:82-94 | in the converter.jar branch the result is V222 iff api.jar holds ExtendedLength.class, else V221 |
| JavaCardSdk.DetectSdk | src/main/java/pro/javacard/JavaCardSDK.java:42-58 | null for a null or blank path, a path that is not a directory, or no detected version; otherwise an SDK with that root and the detected version |
| JavaCardSdk.Sdk.GetJar | src/main/java/pro/javacard/JavaCardSDK.java:181-184 | the path is the root's own path followed by "lib" and the name, relative or absolute as the root is |
| JavaCardSdk.Sdk.JavaVersion | src/main/java/pro/javacard/JavaCardSDK.java:116-131 | a "1.x" string; 1.1 for the 2.1 kits and at least 1.6 for every 3.x kit |
| JavaCardSdk.JavaVersionMonotone | src/main/java/pro/javacard/JavaCardSDK.java:116-131 | the Java version never decreases along the enum order |
| JavaCardSdk.Sdk.ClassLoaderJar | src/main/java/pro/javacard/JavaCardSDK.java:133-147 | a file in the root's lib folder: tools.jar for V301, V304, V305 and V310, offcardverifier.jar for every other version |
| JavaCardSdk.Sdk.Release | src/main/java/pro/javacard/JavaCardSDK.java:149-178 | the dotted version except for 3.0.5; for 3.0.5 it is u3 if verifyTargetPlatform is declared, else u1 if the stream overload of verifyCap is declared, else u2; it fails when the verifier class does not load |
| JavaCardSdk.Sdk.ApiJars | src/main/java/pro/javacard/JavaCardSDK.java:186-211 | never empty; the exact list for each version, including the 3.1.0 case that falls through to add api.jar |
| JavaCardSdk.Sdk.ExportDir | src/main/java/pro/javacard/JavaCardSDK.java:213-222 | one folder directly under the root: api21_export_files iff V212, api_export_files_3.1.0 iff V310, api_export_files for every other version |
| JavaCardSdk.Sdk.ToolJars | src/main/java/pro/javacard/JavaCardSDK.java:224-236 | bin/converter.jar alone for V211, tools.jar alone for 3.x, otherwise converter.jar then offcardverifier.jar |
| JavaCardSdk.Sdk.CompilerJars | src/main/java/pro/javacard/JavaCardSDK.java:238-245 | tools.jar and api_classic_annotations.jar for V304, empty for every other version |
| JavaCardSdk.Sdk.Equals | src/main/java/pro/javacard/JavaCardSDK.java:283-290 | an SDK equals itself; equal SDKs have the same version and agree on whether the root is a directory, because both roots name the same folder |
| JavaCardSdk.Sdk.HashCode | src/main/java/pro/javacard/JavaCardSDK.java:292-295 | the corrected hash: a 32-bit value computed from the absolute path, like equals |
| JavaCardSdk.EqualSdksHashAlike | src/main/java/pro/javacard/JavaCardSDK.java:283-295 | with the corrected hash, equal SDKs hash alike, and equals is symmetric |
| JavaCardSdk.Sdk.HashCodeAsWritten | src/main/java/pro/javacard/JavaCardSDK.java:292-295 | File.hashCode of the path as given, a 32-bit value |
| JavaCardSdk.EqualSdksHashApartAsWritten | src/main/java/pro/javacard/JavaCardSDK.java:283-295 | as written, a relative and an absolute path to the same folder give equal SDKs with different hash codes |
| JavaCardSdk.FileHash | src/main/java/pro/javacard/JavaCardSDK.java:292-295 | File.hashCode on Unix is a 32-bit value |
| JavaCardSdk.HashOfShortNames | src/main/java/pro/javacard/JavaCardSDK.java:292-295 | String.hashCode of "x" and "/x", which the counterexample uses |
| Streams.EntryStream.Read | src/main/java/pro/javacard/OffCardVerifier.java:173 | -1 at the end; otherwise between 1 and the buffer size of the next bytes, placed at the front of the buffer |
| Streams.FileOutput.Write | src/main/java/pro/javacard/OffCardVerifier.java:177 | appends exactly buf[off..off+len] |
| Streams.Copy | src/main/java/pro/javacard/OffCardVerifier.java:171-178 | the copy loop writes exactly the entry's remaining bytes, in order, and stops at the end |
| OffCardVerifier.WithSdkAsWritten | src/main/java/pro/javacard/OffCardVerifier.java:43-48 | as written, the guard never fires: a verifier is made iff the release can be determined |
| OffCardVerifier.WithSdkAsWrittenAccepts21 | src/main/java/pro/javacard/OffCardVerifier.java:44-46 | read as never firing, the guard lets the 2.1.1 and 2.1.2 SDKs through |
| OffCardVerifier.WithSdk | src/main/java/pro/javacard/OffCardVerifier.java:43-56 | corrected: the 2.1.1 and 2.1.2 SDKs are refused with the guard's message ("2.2.1 or later"); otherwise a verifier for that SDK is made iff its release is known |
| OffCardVerifier.ExportsFor | src/main/java/pro/javacard/OffCardVerifier.java:59-61 | a copy of the caller's list with the target's export directory appended last; the caller's list itself is untouched |
| OffCardVerifier.OverloadFor | src/main/java/pro/javacard/OffCardVerifier.java:101-107 | the File overload iff the release is 3.0.5u3 or 3.0.5u2, otherwise the FileInputStream overload |
| OffCardVerifier.OverloadBySdk | src/main/java/pro/javacard/OffCardVerifier.java:101-107 | for a loadable verifier class, the File overload is chosen exactly for a 3.0.5 kit that declares verifyTargetPlatform or lacks the stream overload |
| OffCardVerifier.SuffixCaseDiffers | src/main/java/pro/javacard/OffCardVerifier.java:82-91 | ".EXP" counts inside a jar, where the name is lower-cased, but not as a plain file |
| OffCardVerifier.WalkExps | src/main/java/pro/javacard/OffCardVerifier.java:77-87 | the walk yields every ".exp" file below the directory exactly once, in whatever order the walk visits them |
| OffCardVerifier.PrepareFolderAsWritten | src/main/java/pro/javacard/OffCardVerifier.java:163-168 | as written, a missing file whose parent already exists fails, because mkdirs returns false |
| OffCardVerifier.TopLevelEntryRejectedAsWritten | src/main/java/pro/javacard/OffCardVerifier.java:162-166 | as written, a top-level ".exp" entry is never extracted; the corrected check lets it through without touching the disk |
| OffCardVerifier.PrepareFolder | src/main/java/pro/javacard/OffCardVerifier.java:163-168 | corrected: succeeds unchanged when the file or its parent folder exists, and otherwise leaves the parent folder in place |
| OffCardVerifier.WriteFile | src/main/java/pro/javacard/OffCardVerifier.java:163-179 | on success the file holds exactly the given bytes and every other file is kept |
| OffCardVerifier.WriteEntry | src/main/java/pro/javacard/OffCardVerifier.java:162-180 | one selected entry: the returned file is out/name and its content is the entry's bytes |
| OffCardVerifier.ExtractEntries | src/main/java/pro/javacard/OffCardVerifier.java:160-182 | the entry loop keeps the working directory; with no ".exp" entry among the rest it changes nothing and returns the files found so far |
| OffCardVerifier.ExtractEntriesSelects | src/main/java/pro/javacard/OffCardVerifier.java:160-182 | on success, one file per entry whose lower-cased name ends in ".exp", in entry order, and none for the others |
| OffCardVerifier.ExtractEntriesKeeps | src/main/java/pro/javacard/OffCardVerifier.java:160-182 | a file that no remaining selected entry writes keeps its content |
| OffCardVerifier.ExtractEntriesContent | src/main/java/pro/javacard/OffCardVerifier.java:169-180 | each extracted file holds its entry's bytes, unless a later entry writes the same file |
| OffCardVerifier.ResolveApart | src/main/java/pro/javacard/OffCardVerifier.java:163 | entry names with different components land on different files |
| OffCardVerifier.WriteEntryFrame | src/main/java/pro/javacard/OffCardVerifier.java:162-180 | writing one entry keeps the tree well formed and changes nothing outside the output folder |
| OffCardVerifier.Extract | src/main/java/pro/javacard/OffCardVerifier.java:156-185 | a jar that cannot be opened is an error with the disk unchanged; on success the files are one per ".exp" entry, in entry order |
| OffCardVerifier.ExtractEntriesFrame | src/main/java/pro/javacard/OffCardVerifier.java:160-182 | the entry loop changes nothing outside the output folder and keeps the tree well formed, whether it succeeds or fails |
| OffCardVerifier.ExtractFrame | src/main/java/pro/javacard/OffCardVerifier.java:156-185 | extractExps changes nothing outside the output folder and keeps the tree well formed |
| OffCardVerifier.ExtractExps | src/main/java/pro/javacard/OffCardVerifier.java:156-185 | the imperative loop, buffered copy included, ends with the same disk and the same result as the extraction specification |
| OffCardVerifier.RemoveTree | src/main/java/pro/javacard/OffCardVerifier.java:119-146 | everything at or below the root is deleted and nothing else changes; a missing root is not an error |
| OffCardVerifier.CollectFrom | src/main/java/pro/javacard/OffCardVerifier.java:76-94 | one source: a directory adds its walk, a ".exp" file itself, a ".jar" file its extracted entries, anything else nothing; only the temporary folder changes |
| OffCardVerifier.CollectExports | src/main/java/pro/javacard/OffCardVerifier.java:74-95 | the sources are processed in order, and the list is the concatenation of their contributions; a jar that fails stops the collection with its error; only the temporary folder changes |
| OffCardVerifier.MakeTemp | src/main/java/pro/javacard/OffCardVerifier.java:148-154 | the temporary folder is created when it is new and its parent exists; otherwise "Can not make temporary folder" |
| OffCardVerifier.MakeTempFrame | src/main/java/pro/javacard/OffCardVerifier.java:148-154 | the new temporary folder keeps the tree well formed and is the only change |
| OffCardVerifier.RunVerifier | src/main/java/pro/javacard/OffCardVerifier.java:68-112 | the try block: the verifier is invoked only if the CAP reads, the class loads and the exports collect; the invocation uses the release's overload with the CAP's package and the collected list; its failure becomes VerifierError; every other failure becomes a RuntimeException "Could not run verifier: ..." |
| OffCardVerifier.Verify | src/main/java/pro/javacard/OffCardVerifier.java:66-117 | as RunVerifier, after making the temporary folder, and the disk ends exactly as it began on every path |
| OffCardVerifier.VerifyAgainst | src/main/java/pro/javacard/OffCardVerifier.java:59-63 | verify with the target's export directory collected last; the disk is unchanged |
| CapFileSigner.Plan | src/main/java/pro/javacard/CAPFileSigner.java:55-84 | a key is accepted iff it is RSA with a 1017 to 1024 bit modulus or EC on secp256r1. RSA signs with SHA1withRSA, the SHA1 hash going to the RSA SHA1 DAP file and the SHA-256 hash to the RSA SHA-256 one; EC signs with SHA256withECDSA, the SHA-1 hash going to the P-256 SHA1 DAP file and the SHA-256 hash to the P-256 SHA-256 one |
| CapFileSigner.Signed | src/main/java/pro/javacard/CAPFileSigner.java:54-85 | no entry is removed; an entry that was not there before is one of the key's DAP entries; success needs a supported key |
| CapFileSigner.SignInto | src/main/java/pro/javacard/CAPFileSigner.java:58-62 | one signature, then the put; the entries are unchanged when signing fails |
| CapFileSigner.AddSignature | src/main/java/pro/javacard/CAPFileSigner.java:54-85 | the entries and the outcome are those of the signing specification, computed from the entries before the call |
| CapFileSigner.RejectedKeyChangesNothing | src/main/java/pro/javacard/CAPFileSigner.java:84 | any other key throws IllegalArgumentException and leaves the entries unchanged |
| CapFileSigner.SupportedKeys | src/main/java/pro/javacard/CAPFileSigner.java:55-84 | the IllegalArgumentException happens iff the key is neither 128-byte RSA nor P-256 EC |
| CapFileSigner.OnlyDapEntriesChange | src/main/java/pro/javacard/CAPFileSigner.java:58-80 | every entry other than the key's two DAP entries is untouched, whatever the outcome |
| CapFileSigner.SuccessWritesBoth | src/main/java/pro/javacard/CAPFileSigner.java:58-80 | on success exactly the key's two DAP entries are added or overwritten; RSA's SHA1 file holds SHA1withRSA over the SHA1 hash and its SHA-256 file the one over the SHA-256 hash, and likewise for EC with SHA256withECDSA |
| CapFileSigner.SecondFailureKeepsFirst | src/main/java/pro/javacard/CAPFileSigner.java:61-66 | the writes are not atomic: if only the second signature fails, the first entry stays written |
| CapFileTool.IndexOfIgnoreCase | src/main/java/pro/javacard/CAPFileTool.java:34-35 | the first index whose element equalsIgnoreCase the flag, or -1 when none does |
| CapFileTool.ArgVector.Remove | src/main/java/pro/javacard/CAPFileTool.java:36 | Vector.remove(Object) drops the first element equal to its argument, and reports whether one existed |
| CapFileTool.Has | src/main/java/pro/javacard/CAPFileTool.java:33-41 | true iff some element equalsIgnoreCase the flag; then exactly the first such element is removed and the rest keep their order; on false the vector is unchanged |
| CapFileTool.SecondMatchStays | src/main/java/pro/javacard/CAPFileTool.java:46 | when two elements match, the later one is still there after has |
| CapFileTool.RemoveAtKeepsOthers | src/main/java/pro/javacard/CAPFileTool.java:36 | the removal takes out one element and keeps the others in order |
| CapFileTool.SetupVerifier | src/main/java/pro/javacard/CAPFileTool.java:50-60 | with -v: a missing JC_HOME stops with its message; a detection error is a crash; no detected SDK stops with "Could not fetect ..." and the path; otherwise the verifier is made for the detected SDK iff withSDK accepts it |
| CapFileTool.AfterFlag | src/main/java/pro/javacard/CAPFileTool.java:48-64 | a failed verifier setup stops main first; then an empty argument list gives the usage message; otherwise main goes on with the arguments and the verifier |
| CapFileTool.StartTool | src/main/java/pro/javacard/CAPFileTool.java:43-64 | the outcome of the start of main is the one the decision function gives for the arguments and the verifier setup |
| CapFileTool.Started | src/main/java/pro/javacard/CAPFileTool.java:43-64 | when main goes on, it has between one and all of the arguments, each taken from the arguments |
| CapFileTool.StartedProceeds | src/main/java/pro/javacard/CAPFileTool.java:44-64 | main goes on only with a non-empty list: the arguments minus the first "-v" in any case; the verifier is present exactly when the flag was |
| CapFileTool.StartedUsage | src/main/java/pro/javacard/CAPFileTool.java:62-64 | the usage message is given iff no argument remains after the flag is removed |
| CapFileTool.StartedSetupFails | src/main/java/pro/javacard/CAPFileTool.java:50-58 | with the flag, a failed verifier setup ends main before the usage check |
| FileSystems.Mkdirs | src/main/java/pro/javacard/OffCardVerifier.java:165 | File.mkdirs: true iff the path did not exist and no file blocks it; then the path and its missing ancestors are directories; false changes nothing |
| FileSystems.Delete | src/main/java/pro/javacard/OffCardVerifier.java:125-133 | Files.delete: a missing path fails, a file is removed, and a directory is removed only when empty |

## Left out

- The hex codecs (`HexUtils`) are not part of this model. They are the `hex2bin` / `stringToBin` parameters, so no hex round trip is claimed.
- Aids: `toString` (hex output) is not modelled, because it is a HexUtils call.
- Zip and jar parsing is the `unzip` parameter. The CAP parser (`CAPFile.fromStream`, `getPackageName`, `dump`) is `readCap`. CAPFile is not part of this model.
- Class loading and reflection are replaced by the `Toolchain` parameter, and `Method.invoke` by `run`.
- JavaCardSdk.Sdk.Release: it tests the declared methods of the class (getDeclaredMethod), while verify looks up public ones (getMethod). The model uses one set for both.
- Console output and `System.exit` are left out. That covers the constructor's warning about releases other than 3.0.5u3 and the `# file` lines. `fail` is the `Exit` outcome.
- CapFileTool.StartTool: `System.getenv("JC_HOME")` is the `jcHome` parameter.
- CapFileTool.StartTool stops before the per-file loop (CAPFileTool.java:65-80). That loop calls a one-argument `verify(File)` that OffCardVerifier does not define.
- Cryptography is left out:
  - `Signature`, `getLoadFileDataHash` and key generation are the `sign` and `hash` parameters.
  - `pem2keypair` is PEM file I/O through BouncyCastle.
  - The secp256r1 parameters are written out as the NIST P-256 constants instead of being copied from a generated key.
- CapFileSigner.Plan: ECParameterSpec does not override `equals`, so the source compares parameter objects by identity. The model compares the curve values, which accepts P-256 keys whose parameters come from another object.
- CapFileSigner: the DAP file names are CAPFile constants. They are kept as symbols (`DapFile`), and each is stored under "META-INF/" plus that name.
- String handling is ASCII only:
  - `toLowerCase`, `equalsIgnoreCase` and `trim` are modelled on ASCII letters and control characters.
  - There is no Unicode case folding.
  - `File.hashCode` is the Unix one, the path string's hash XOR 1234321.
- Paths are split on "/" only:
  - "." and ".." are not normalised.
  - An entry name that climbs out of the output folder ("zip slip") is not modelled.
  - WriteEntry: the IOException message is simplified to "cannot write" plus the path.
- OffCardVerifier.WalkExps: an I/O error during the walk is not modelled, so walks always finish.
- OffCardVerifier.RemoveTree: it deletes all files first and then the directories, deepest first, rather than in the walk's visiting order. I/O errors during cleanup are not modelled. In the source such an error becomes a RuntimeException in `finally`, which would mask the verifier's own outcome.
- OffCardVerifier.MakeTemp: the temporary folder's name is a parameter. The platform choosing a fresh name is not modelled.
- OffCardVerifier.RunVerifier: the exception messages are simplified to their class names. The second `FileInputStream(f)` always opens, because the disk outside the temporary folder is unchanged.
- WellKnownAids.Registry.constructor: the 15 `put` calls are modelled as a loop over the registration table, in the same order.
- OffCardVerifier.WriteFile: it uses the corrected folder check (PrepareFolder, see Findings). Where the file is missing but its parent folder exists, the source's `mkdirs()` test throws "Failed to create folder"; the model writes the file.
- OffCardVerifier.WriteEntry: follows WriteFile's corrected folder check.
- OffCardVerifier.ExtractEntries: follows WriteFile's corrected folder check, so a top-level entry or a second entry in one folder is extracted instead of failing.
- OffCardVerifier.ExtractEntriesSelects: proved for the corrected folder check; the source fails on a top-level entry or a second entry in one folder.
- OffCardVerifier.ExtractEntriesKeeps: proved for the corrected folder check.
- OffCardVerifier.ExtractEntriesContent: proved for the corrected folder check.
- OffCardVerifier.Extract: follows the corrected folder check.
- OffCardVerifier.ExtractExps: its loop calls the corrected folder check.
- OffCardVerifier.CollectFrom: a jar is extracted with the corrected folder check.
- OffCardVerifier.CollectExports: jars are extracted with the corrected folder check.
- OffCardVerifier.RunVerifier: with the corrected folder check, a jar with a top-level ".exp" entry reaches the verifier; the source ends with "Could not run verifier: ...".
- OffCardVerifier.Verify: inherits RunVerifier's corrected folder check.
- OffCardVerifier.VerifyAgainst: inherits Verify's corrected folder check.
- CapFileTool.SetupVerifier: it calls the corrected guard (WithSdk, see Findings), so a 2.1.1 or 2.1.2 SDK stops main; the source's guard does not compile as written.
- CapFileTool.StartTool: inherits SetupVerifier's corrected guard.

## Findings

| source | as written | input that shows it | evidently intended | confidence | as-written member | corrected member |
|---|---|---|---|---|---|---|
| src/main/java/pro/javacard/OffCardVerifier.java:45-46 | the guard compares the version with `Version.V21`, which the enum does not declare, so the line does not compile; the model reads the comparison as never true, so no SDK is refused | an SDK detected as V211 (a `bin/api.jar` kit) or V212 (a `lib/api21.jar` kit) | refuse the 2.1 line (2.1.1 and 2.1.2), as the message "2.2.1 or later" says | medium; not executed | OffCardVerifier.WithSdkAsWrittenAccepts21 | OffCardVerifier.WithSdk |
| src/main/java/pro/javacard/OffCardVerifier.java:164-166 | when the target file is missing, `mkdirs()` on its parent must return true; it returns false when the parent already exists | a jar whose entry `a.exp` sits at the top level (its parent is the existing output folder), or any second entry in the same folder | create the parent only when it is not already a directory | high; not executed | OffCardVerifier.TopLevelEntryRejectedAsWritten | OffCardVerifier.PrepareFolder |
| src/main/java/pro/javacard/JavaCardSDK.java:283-295 | `equals` compares absolute paths but `hashCode` hashes the path as given | with working directory "/", `Sdk(Path(false,["x"]), V305)` and `Sdk(Path(true,["x"]), V305)` are equal, but their hash codes are 1234409 and 1233848 | hash the absolute path, so that equal SDKs hash alike | high; not executed | JavaCardSdk.EqualSdksHashApartAsWritten | JavaCardSdk.EqualSdksHashAlike |
