/**
 * The registry of well-known platform package AIDs and their package names.
 * Each key is written as the bytes its hex string in the registry encodes.
 */
module WellKnownAids {
  import opened Base
  import opened Aids

  datatype Registration = Registration(key: seq<byte>, name: string)

  const JAVA_LANG: seq<byte> := [0xA0, 0x00, 0x00, 0x00, 0x62, 0x00, 0x01]
  const JAVA_IO: seq<byte> := [0xA0, 0x00, 0x00, 0x00, 0x62, 0x00, 0x02]
  const JAVA_RMI: seq<byte> := [0xA0, 0x00, 0x00, 0x00, 0x62, 0x00, 0x03]
  const FRAMEWORK: seq<byte> := [0xA0, 0x00, 0x00, 0x00, 0x62, 0x01, 0x01]
  const SECURITY: seq<byte> := [0xA0, 0x00, 0x00, 0x00, 0x62, 0x01, 0x02]
  const FRAMEWORK_SERVICE: seq<byte> := [0xA0, 0x00, 0x00, 0x00, 0x62, 0x01, 0x01, 0x01]
  const CRYPTO: seq<byte> := [0xA0, 0x00, 0x00, 0x00, 0x62, 0x02, 0x01]
  const BIOMETRY: seq<byte> := [0xA0, 0x00, 0x00, 0x00, 0x62, 0x02, 0x02]
  const EXTERNAL: seq<byte> := [0xA0, 0x00, 0x00, 0x00, 0x62, 0x02, 0x03]
  const APDU: seq<byte> := [0xA0, 0x00, 0x00, 0x00, 0x62, 0x02, 0x09]
  const UTIL: seq<byte> := [0xA0, 0x00, 0x00, 0x00, 0x62, 0x02, 0x08, 0x01]
  const UTIL_INTX: seq<byte> := [0xA0, 0x00, 0x00, 0x00, 0x62, 0x02, 0x08, 0x01, 0x01]
  const MATH: seq<byte> := [0xA0, 0x00, 0x00, 0x00, 0x62, 0x02, 0x08, 0x02]
  const TLV: seq<byte> := [0xA0, 0x00, 0x00, 0x00, 0x62, 0x02, 0x08, 0x03]
  const GLOBALPLATFORM: seq<byte> := [0xA0, 0x00, 0x00, 0x01, 0x51, 0x00]

  /** The registrations, in the order the initializer puts them. */
  const REGISTRATIONS: seq<Registration> := [
    Registration(JAVA_LANG, "java.lang"),
    Registration(JAVA_IO, "java.io"),
    Registration(JAVA_RMI, "java.rmi"),
    Registration(FRAMEWORK, "javacard.framework"),
    Registration(SECURITY, "javacard.security"),
    Registration(FRAMEWORK_SERVICE, "javacard.framework.service"),
    Registration(CRYPTO, "javacardx.crypto"),
    Registration(BIOMETRY, "javacardx.biometry"),
    Registration(EXTERNAL, "javacardx.external"),
    Registration(APDU, "javacardx.apdu"),
    Registration(UTIL, "javacardx.framework.util"),
    Registration(UTIL_INTX, "javacardx.framework.util.intx"),
    Registration(MATH, "javacardx.framework.math"),
    Registration(TLV, "javacardx.framework.tlv"),
    Registration(GLOBALPLATFORM, "org.globalplatform")
  ]

  /** Every key decodes to a legal AID of 6 to 9 bytes: no put can throw on length. */
  lemma KeysAreValidAids()
    ensures |REGISTRATIONS| == 15
    ensures forall i :: 0 <= i < |REGISTRATIONS| ==>
              6 <= |REGISTRATIONS[i].key| <= 9 && FromBytes(REGISTRATIONS[i].key).Success?
  {
  }

  /** No two registrations share a key, so no put overwrites an earlier one. */
  lemma KeysAreDistinct()
    ensures forall i, j :: 0 <= i < j < |REGISTRATIONS| ==> REGISTRATIONS[i].key != REGISTRATIONS[j].key
  {
    forall i, j | 0 <= i < j < |REGISTRATIONS|
      ensures REGISTRATIONS[i].key != REGISTRATIONS[j].key
    {
      var a, b := REGISTRATIONS[i].key, REGISTRATIONS[j].key;
      if |a| == |b| {
        assert a[|a| - 1] != b[|b| - 1] || a[|a| - 2] != b[|b| - 2];
      }
    }
  }

  /** The keys of the first k registrations, each mapped to its name, and nothing else. */
  ghost predicate HoldsFirst(m: map<Aid, string>, k: nat) {
    && k <= |REGISTRATIONS|
    && (forall i :: 0 <= i < k ==>
          Aid(REGISTRATIONS[i].key) in m && m[Aid(REGISTRATIONS[i].key)] == REGISTRATIONS[i].name)
    && m.Keys == KeysUpTo(k)
  }

  /** The AIDs of the first k registrations. */
  ghost function KeysUpTo(k: nat): set<Aid>
    requires k <= |REGISTRATIONS|
  {
    if k == 0 then {} else KeysUpTo(k - 1) + {Aid(REGISTRATIONS[k - 1].key)}
  }

  lemma {:induction false} KeysUpToMembers(k: nat, a: Aid)
    requires k <= |REGISTRATIONS|
    ensures a in KeysUpTo(k) <==> exists i :: 0 <= i < k && a == Aid(REGISTRATIONS[i].key)
  {
    if k > 0 {
      KeysUpToMembers(k - 1, a);
    }
  }

  /** The k-th put adds the k-th registration; its key being new, it disturbs none before it. */
  lemma PutStep(m: map<Aid, string>, k: nat)
    requires k < |REGISTRATIONS| && HoldsFirst(m, k)
    ensures HoldsFirst(m[Aid(REGISTRATIONS[k].key) := REGISTRATIONS[k].name], k + 1)
  {
    KeysAreDistinct();
  }

  /** The registry map after the static initializer has run. */
  class Registry {
    var registry: map<Aid, string>

    ghost predicate Valid()
      reads this
    {
      HoldsFirst(registry, |REGISTRATIONS|)
    }

    /** The static initializer: the puts, in order, into an empty map. */
    constructor ()
      ensures Valid()
    {
      var m: map<Aid, string> := map[];
      var k := 0;
      while k < |REGISTRATIONS|
        invariant k <= |REGISTRATIONS|
        invariant HoldsFirst(m, k)
      {
        PutStep(m, k);
        m := m[Aid(REGISTRATIONS[k].key) := REGISTRATIONS[k].name];
        k := k + 1;
      }
      registry := m;
    }

    /** getName: the registered name, or None (Java's null) for any other AID. */
    function GetName(aid: Aid): (r: Option<string>)
      requires Valid()
      reads this
      ensures r.Some? <==> exists i :: 0 <= i < |REGISTRATIONS| && REGISTRATIONS[i].key == aid.bytes
      ensures forall i :: 0 <= i < |REGISTRATIONS| && REGISTRATIONS[i].key == aid.bytes ==>
                r == Some(REGISTRATIONS[i].name)
    {
      KeysUpToMembers(|REGISTRATIONS|, aid);
      if aid in registry then Some(registry[aid]) else None
    }

    /**
     * Lookup is exact: a registered key that is a prefix of another registered
     * key does not shadow it, in either direction, and a prefix of a key finds nothing.
     */
    lemma LookupIsExact()
      requires Valid()
      ensures GetName(Aid(FRAMEWORK)) == Some("javacard.framework")
      ensures GetName(Aid(FRAMEWORK_SERVICE)) == Some("javacard.framework.service")
      ensures GetName(Aid(UTIL)) == Some("javacardx.framework.util")
      ensures GetName(Aid(UTIL_INTX)) == Some("javacardx.framework.util.intx")
      ensures GetName(Aid(FRAMEWORK[..6])) == None
    {
      assert REGISTRATIONS[3].key == FRAMEWORK;
      assert REGISTRATIONS[5].key == FRAMEWORK_SERVICE;
      assert REGISTRATIONS[10].key == UTIL;
      assert REGISTRATIONS[11].key == UTIL_INTX;
      var short := FRAMEWORK[..6];
      forall i | 0 <= i < |REGISTRATIONS| ensures REGISTRATIONS[i].key != short {
        if |REGISTRATIONS[i].key| == 6 {
          assert REGISTRATIONS[i].key[3] != short[3];
        }
      }
    }

    /** Lookup is structural: a freshly decoded AID with a registered key finds its name. */
    lemma FreshAidFindsEntry(bytes: seq<byte>, i: nat)
      requires Valid()
      requires i < |REGISTRATIONS| && bytes == REGISTRATIONS[i].key
      ensures FromBytes(bytes).Success?
      ensures GetName(FromBytes(bytes).value) == Some(REGISTRATIONS[i].name)
    {
      KeysAreValidAids();
    }
  }
}
