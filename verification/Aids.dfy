/**
 * The application identifier (AID): an immutable run of 5 to 16 bytes,
 * compared and hashed byte for byte.
 */
module Aids {
  import opened Base

  const MIN_LENGTH: int := 5
  const MAX_LENGTH: int := 16

  datatype AidError =
    | InvalidLength(length: int)      // IllegalArgumentException from the length check
    | OffsetOutOfBounds(offset: int)  // ArrayIndexOutOfBoundsException from the range copy
    | InvalidEncoding                 // the hex decoder rejected the text
    | NotAString                      // IllegalArgumentException from fromString

  datatype Aid = Aid(bytes: seq<byte>) {

    /** getLength: the number of bytes, which is also the length of every getBytes copy. */
    function Length(): (n: nat)
      ensures n == |bytes|
    {
      |bytes|
    }

    /** A fresh array holding the bytes: writing to it leaves this AID alone. */
    method GetBytes() returns (a: array<byte>)
      ensures fresh(a)
      ensures a[..] == bytes
    {
      a := new byte[|bytes|](i requires 0 <= i < |bytes| => bytes[i]);
    }

    /** Arrays.hashCode of the bytes, as an unsigned 32-bit pattern. */
    function HashCode(): (h: int)
      ensures 0 <= h < TWO_POW_32
    {
      Hash31(1, seq(|bytes|, i requires 0 <= i < |bytes| => SignedByte(bytes[i])))
    }

    /** equals(Object): only another AID with the same bytes is equal. */
    predicate Equals(o: JavaObject): (b: bool)
      ensures o == AidObject(this) ==> b
      ensures b ==> o.AidObject? && o.aid == this
      ensures !o.AidObject? ==> !b
    {
      o.AidObject? && o.aid.bytes == bytes
    }
  }

  /** The kinds of argument fromString and equals can be handed. */
  datatype JavaObject = AidObject(aid: Aid) | StringObject(text: string) | OtherObject

  /**
   * Arrays.copyOfRange(src, from, to): the range, padded with zero bytes where
   * it runs past the end of src.
   */
  function CopyOfRange(src: seq<byte>, from: int, to: int): (r: seq<byte>)
    requires 0 <= from <= |src| && from <= to
    ensures |r| == to - from
    ensures forall i :: 0 <= i < |r| ==> r[i] == if from + i < |src| then src[from + i] else 0
    ensures to <= |src| ==> r == src[from..to]
  {
    if to <= |src| then src[from..to]
    else src[from..] + seq(to - |src|, _ => 0)
  }

  /** new AID(bytes, offset, length). */
  function FromRange(bytes: seq<byte>, offset: int, length: int): (r: Result<Aid, AidError>)
    ensures r.Success? <==> MIN_LENGTH <= length <= MAX_LENGTH && 0 <= offset <= |bytes|
    ensures !(MIN_LENGTH <= length <= MAX_LENGTH) ==> r == Failure(InvalidLength(length))
    ensures r.Success? ==> r.value.Length() == length
    ensures r.Success? && offset + length <= |bytes| ==> r.value.bytes == bytes[offset..offset + length]
    ensures r.Success? && offset + length > |bytes| ==>
              r.value.bytes == bytes[offset..] + seq(offset + length - |bytes|, _ => 0)
  {
    if length < MIN_LENGTH || length > MAX_LENGTH then Failure(InvalidLength(length))
    else if offset < 0 || offset > |bytes| then Failure(OffsetOutOfBounds(offset))
    else Success(Aid(CopyOfRange(bytes, offset, offset + length)))
  }

  /** new AID(bytes): the whole array. */
  function FromBytes(bytes: seq<byte>): (r: Result<Aid, AidError>)
    ensures r.Success? <==> MIN_LENGTH <= |bytes| <= MAX_LENGTH
    ensures r.Success? ==> r.value.bytes == bytes
    ensures r.Failure? ==> r.error == InvalidLength(|bytes|)
  {
    FromRange(bytes, 0, |bytes|)
  }

  /** new AID(String): the hex decoder is a parameter, None when the text is not hex. */
  function FromHex(text: string, hex2bin: string -> Option<seq<byte>>): (r: Result<Aid, AidError>)
    ensures hex2bin(text).None? ==> r == Failure(InvalidEncoding)
    ensures hex2bin(text).Some? ==>
              (r.Success? <==> MIN_LENGTH <= |hex2bin(text).value| <= MAX_LENGTH)
    ensures r.Success? ==> r.value.bytes == hex2bin(text).value
  {
    match hex2bin(text)
    case None => Failure(InvalidEncoding)
    case Some(bytes) => FromBytes(bytes)
  }

  /** AID.fromString(Object): anything but a String is refused before decoding. */
  function FromString(o: JavaObject, stringToBin: string -> Option<seq<byte>>): (r: Result<Aid, AidError>)
    ensures !o.StringObject? ==> r == Failure(NotAString)
    ensures o.StringObject? ==> r == FromHex(o.text, stringToBin)
  {
    if o.StringObject? then FromHex(o.text, stringToBin) else Failure(NotAString)
  }

  /** Every AID the constructors hand out is between 5 and 16 bytes long. */
  lemma ConstructedLengthInBounds(bytes: seq<byte>, offset: int, length: int)
    requires FromRange(bytes, offset, length).Success?
    ensures MIN_LENGTH <= FromRange(bytes, offset, length).value.Length() <= MAX_LENGTH
  {
  }

  /** equals is byte equality, and equal AIDs hash alike. */
  lemma EqualsMeansSameBytes(a: Aid, b: Aid)
    ensures a.Equals(AidObject(b)) <==> a.bytes == b.bytes
    ensures a.Equals(AidObject(b)) ==> a.HashCode() == b.HashCode() && b.Equals(AidObject(a))
  {
  }

  /** Two AIDs built from equal byte runs are equal objects. */
  lemma StructuralIdentity(x: seq<byte>, y: seq<byte>)
    requires FromBytes(x).Success? && FromBytes(y).Success?
    ensures FromBytes(x).value.Equals(AidObject(FromBytes(y).value)) <==> x == y
  {
  }
}
