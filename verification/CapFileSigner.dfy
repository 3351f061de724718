/**
 * Adding DAP signatures to a CAP file: the private key's type and size pick
 * the signature algorithm and the two META-INF entries that receive the
 * signatures over the load file data hashes.
 */
module CapFileSigner {
  import opened Base

  /** The DAP file names a CAP file defines under META-INF/; their spelling is not part of this model. */
  datatype DapFile = DapRsaV1Sha1 | DapRsaV1Sha256 | DapP256Sha1 | DapP256Sha256

  /** A CAP entry name: "META-INF/" followed by a DAP file name, or any other name. */
  datatype EntryName = MetaInf(dap: DapFile) | Named(name: string)

  /** The domain parameters of a prime curve: field prime, coefficients, generator, order and cofactor. */
  datatype CurveParams = CurveParams(p: nat, a: nat, b: nat, gx: nat, gy: nat, n: nat, h: nat)

  /** The NIST P-256 (secp256r1) parameters. */
  const SECP256R1: CurveParams := CurveParams(
    0xFFFFFFFF00000001000000000000000000000000FFFFFFFFFFFFFFFFFFFFFFFF,
    0xFFFFFFFF00000001000000000000000000000000FFFFFFFFFFFFFFFFFFFFFFFC,
    0x5AC635D8AA3A93E7B3EBBD55769886BC651D06B0CC53B0F63BCE3C3E27D2604B,
    0x6B17D1F2E12C4247F8BCE6E563A440F277037D812DEB33A0F4A13945D898C296,
    0x4FE342E2FE1A7F9B8EE7EB4A7C0F9E162BCE33576B315ECECBB6406837BF51F5,
    0xFFFFFFFF00000000FFFFFFFFFFFFFFFFBCE6FAADA7179E84F3B9CAC2FC632551,
    1)

  /** A private key, as far as addSignature looks at it. */
  datatype PrivateKey = RsaKey(modulusBitLength: nat) | EcKey(params: CurveParams) | OtherKey

  datatype SignError = IllegalArgument(message: string) | SecurityFailure

  const UNSUPPORTED_KEY := "Only 1024 bit RSA and P256 EC keys are supported!"

  /** The CAP file's entries, which addSignature updates in place. */
  class CapFile {
    var entries: map<EntryName, seq<byte>>

    constructor (entries: map<EntryName, seq<byte>>)
      ensures this.entries == entries
    {
      this.entries := entries;
    }
  }

  /** One signature: the algorithm, the hash it signs, and the entry it is stored under. */
  datatype Step = Step(algorithm: string, hashName: string, file: DapFile)

  /** The two signatures a key receives, in order, or None when the key is not supported. */
  function Plan(key: PrivateKey): (r: Option<(Step, Step)>)
    ensures r.Some? <==>
              (key.RsaKey? && 1017 <= key.modulusBitLength <= 1024) || (key.EcKey? && key.params == SECP256R1)
    ensures r.Some? && key.RsaKey? ==>
              r.value.0.algorithm == r.value.1.algorithm == "SHA1withRSA" &&
              r.value.0.hashName == "SHA1" && r.value.1.hashName == "SHA-256"
    ensures r.Some? && key.EcKey? ==>
              r.value.0.algorithm == r.value.1.algorithm == "SHA256withECDSA" &&
              r.value.0.hashName == "SHA-1" && r.value.1.hashName == "SHA-256"
    ensures r.Some? && key.RsaKey? ==> r.value.0.file == DapRsaV1Sha1 && r.value.1.file == DapRsaV1Sha256
    ensures r.Some? && key.EcKey? ==> r.value.0.file == DapP256Sha1 && r.value.1.file == DapP256Sha256
  {
    match key
    case RsaKey(bits) =>
      if (bits + 7) / 8 == 128 then
        Some((Step("SHA1withRSA", "SHA1", DapRsaV1Sha1), Step("SHA1withRSA", "SHA-256", DapRsaV1Sha256)))
      else None
    case EcKey(params) =>
      if params == SECP256R1 then
        Some((Step("SHA256withECDSA", "SHA-1", DapP256Sha1), Step("SHA256withECDSA", "SHA-256", DapP256Sha256)))
      else None
    case OtherKey => None
  }

  /**
   * The entries and the outcome after addSignature: the first signature is
   * stored before the second is computed, so a failure of the second leaves
   * the first in place.
   */
  function Signed(entries: map<EntryName, seq<byte>>, key: PrivateKey, hash: string -> seq<byte>,
                  sign: (string, PrivateKey, seq<byte>) -> Option<seq<byte>>): (r: (map<EntryName, seq<byte>>, Outcome<SignError>))
    ensures entries.Keys <= r.0.Keys
    ensures forall n :: n in r.0 && n !in entries ==> n.MetaInf? && n.dap in DapFilesFor(key)
    ensures r.1 == Pass ==> Plan(key).Some?
  {
    match Plan(key)
    case None => (entries, Fail(IllegalArgument(UNSUPPORTED_KEY)))
    case Some((first, second)) =>
      match sign(first.algorithm, key, hash(first.hashName))
      case None => (entries, Fail(SecurityFailure))
      case Some(dap1) =>
        var once := entries[MetaInf(first.file) := dap1];
        match sign(second.algorithm, key, hash(second.hashName))
        case None => (once, Fail(SecurityFailure))
        case Some(dap2) => (once[MetaInf(second.file) := dap2], Pass)
  }

  /** One signer.initSign / update / sign, then the put; false when the signature fails. */
  method SignInto(cap: CapFile, key: PrivateKey, step: Step, hash: string -> seq<byte>,
                  sign: (string, PrivateKey, seq<byte>) -> Option<seq<byte>>) returns (ok: bool)
    modifies cap
    ensures var dap := sign(step.algorithm, key, hash(step.hashName));
            ok == dap.Some? &&
            cap.entries == if ok then old(cap.entries)[MetaInf(step.file) := dap.value] else old(cap.entries)
  {
    var dap := sign(step.algorithm, key, hash(step.hashName));
    if dap.None? {
      return false;
    }
    cap.entries := cap.entries[MetaInf(step.file) := dap.value];
    return true;
  }

  /** addSignature: dispatch on the key (Plan), then store the two signatures one after the other. */
  method AddSignature(cap: CapFile, key: PrivateKey, hash: string -> seq<byte>,
                      sign: (string, PrivateKey, seq<byte>) -> Option<seq<byte>>) returns (r: Outcome<SignError>)
    modifies cap
    ensures (cap.entries, r) == Signed(old(cap.entries), key, hash, sign)
  {
    var plan := Plan(key);
    if plan.None? {
      return Fail(IllegalArgument(UNSUPPORTED_KEY));
    }
    var ok := SignInto(cap, key, plan.value.0, hash, sign);
    if !ok {
      return Fail(SecurityFailure);
    }
    ok := SignInto(cap, key, plan.value.1, hash, sign);
    if !ok {
      return Fail(SecurityFailure);
    }
    return Pass;
  }

  /** An unsupported key is refused with IllegalArgumentException and the entries are untouched. */
  lemma RejectedKeyChangesNothing(entries: map<EntryName, seq<byte>>, key: PrivateKey, hash: string -> seq<byte>,
                                  sign: (string, PrivateKey, seq<byte>) -> Option<seq<byte>>)
    requires !(key.RsaKey? && 1017 <= key.modulusBitLength <= 1024) && !(key.EcKey? && key.params == SECP256R1)
    ensures Signed(entries, key, hash, sign) == (entries, Fail(IllegalArgument(UNSUPPORTED_KEY)))
  {
  }

  /** The supported keys: RSA with a 1017 to 1024 bit modulus (128 bytes), and EC keys on P-256. */
  lemma SupportedKeys(key: PrivateKey, hash: string -> seq<byte>,
                      sign: (string, PrivateKey, seq<byte>) -> Option<seq<byte>>, entries: map<EntryName, seq<byte>>)
    ensures Signed(entries, key, hash, sign).1 != Fail(IllegalArgument(UNSUPPORTED_KEY)) <==>
              (key.RsaKey? && 1017 <= key.modulusBitLength <= 1024) || (key.EcKey? && key.params == SECP256R1)
  {
  }

  /** The files each kind of key writes on success. */
  function DapFilesFor(key: PrivateKey): set<DapFile> {
    match key
    case RsaKey(_) => {DapRsaV1Sha1, DapRsaV1Sha256}
    case EcKey(_) => {DapP256Sha1, DapP256Sha256}
    case OtherKey => {}
  }

  /** Whatever happens, only the key's own DAP entries may change. */
  lemma OnlyDapEntriesChange(entries: map<EntryName, seq<byte>>, key: PrivateKey, hash: string -> seq<byte>,
                             sign: (string, PrivateKey, seq<byte>) -> Option<seq<byte>>, name: EntryName)
    requires name.Named? || name.dap !in DapFilesFor(key)
    ensures var after := Signed(entries, key, hash, sign).0;
            (name in after <==> name in entries) && (name in entries ==> after[name] == entries[name])
  {
  }

  /** On success exactly the key's two DAP entries are added or overwritten, each with its own signature. */
  lemma SuccessWritesBoth(entries: map<EntryName, seq<byte>>, key: PrivateKey, hash: string -> seq<byte>,
                          sign: (string, PrivateKey, seq<byte>) -> Option<seq<byte>>)
    requires Signed(entries, key, hash, sign).1 == Pass
    ensures Plan(key).Some? && {Plan(key).value.0.file, Plan(key).value.1.file} == DapFilesFor(key)
    ensures var after := Signed(entries, key, hash, sign).0;
            var (first, second) := Plan(key).value;
            && after.Keys == entries.Keys + {MetaInf(first.file), MetaInf(second.file)}
            && Some(after[MetaInf(first.file)]) == sign(first.algorithm, key, hash(first.hashName))
            && Some(after[MetaInf(second.file)]) == sign(second.algorithm, key, hash(second.hashName))
    ensures var after := Signed(entries, key, hash, sign).0;
            key.RsaKey? ==>
              && Some(after[MetaInf(DapRsaV1Sha1)]) == sign("SHA1withRSA", key, hash("SHA1"))
              && Some(after[MetaInf(DapRsaV1Sha256)]) == sign("SHA1withRSA", key, hash("SHA-256"))
    ensures var after := Signed(entries, key, hash, sign).0;
            key.EcKey? ==>
              && Some(after[MetaInf(DapP256Sha1)]) == sign("SHA256withECDSA", key, hash("SHA-1"))
              && Some(after[MetaInf(DapP256Sha256)]) == sign("SHA256withECDSA", key, hash("SHA-256"))
  {
  }

  /** The writes are not atomic: when only the second signature fails, the first entry stays written. */
  lemma SecondFailureKeepsFirst(entries: map<EntryName, seq<byte>>, key: PrivateKey, hash: string -> seq<byte>,
                                sign: (string, PrivateKey, seq<byte>) -> Option<seq<byte>>)
    requires Plan(key).Some?
    requires sign(Plan(key).value.0.algorithm, key, hash(Plan(key).value.0.hashName)).Some?
    requires sign(Plan(key).value.1.algorithm, key, hash(Plan(key).value.1.hashName)).None?
    ensures var (after, r) := Signed(entries, key, hash, sign);
            var first := Plan(key).value.0;
            && r == Fail(SecurityFailure)
            && after.Keys == entries.Keys + {MetaInf(first.file)}
            && Some(after[MetaInf(first.file)]) == sign(first.algorithm, key, hash(first.hashName))
  {
  }
}
