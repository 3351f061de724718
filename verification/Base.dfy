/**
 * Shared vocabulary of the model: failure-compatible wrappers, bytes, and the
 * few pieces of java.lang that the core relies on (String.endsWith, ASCII
 * case conversion, equalsIgnoreCase, trim, and the 31-multiplier hash that
 * String.hashCode and Arrays.hashCode share).
 */
module Base {

  datatype Option<+T> = None | Some(value: T)

  datatype Result<+T, +E> = Success(value: T) | Failure(error: E)

  datatype Outcome<+E> = Pass | Fail(error: E)

  /** An unsigned octet; Java's signed view of it is SignedByte. */
  type byte = b: int | 0 <= b < 256

  /** The value Java sees when a byte is widened to int. */
  function SignedByte(b: byte): (v: int)
    ensures -128 <= v < 128
    ensures (v - b) % 256 == 0
  {
    if b < 128 then b else b - 256
  }

  predicate StartsWith(s: string, prefix: string) {
    |prefix| <= |s| && s[..|prefix|] == prefix
  }

  predicate EndsWith(s: string, suffix: string) {
    |suffix| <= |s| && s[|s| - |suffix|..] == suffix
  }

  function ToLowerChar(c: char): char {
    if 'A' <= c <= 'Z' then (c as int + 32) as char else c
  }

  function ToUpperChar(c: char): char {
    if 'a' <= c <= 'z' then (c as int - 32) as char else c
  }

  /** String.toLowerCase, restricted to the ASCII letters. */
  function ToLower(s: string): (r: string)
    ensures |r| == |s|
    ensures forall i :: 0 <= i < |s| ==> r[i] == ToLowerChar(s[i])
  {
    seq(|s|, i requires 0 <= i < |s| => ToLowerChar(s[i]))
  }

  /** The per-character test of String.equalsIgnoreCase. */
  predicate CharEqualsIgnoreCase(c: char, d: char) {
    c == d || ToUpperChar(c) == ToUpperChar(d) || ToLowerChar(c) == ToLowerChar(d)
  }

  predicate EqualsIgnoreCase(a: string, b: string) {
    |a| == |b| && forall i :: 0 <= i < |a| ==> CharEqualsIgnoreCase(a[i], b[i])
  }

  /** `s.trim().length() == 0`: trim strips every character up to U+0020. */
  predicate IsBlank(s: string) {
    forall i :: 0 <= i < |s| ==> s[i] <= ' '
  }

  const TWO_POW_32: int := 0x1_0000_0000

  /** An int reduced to the 32 bits Java keeps, as an unsigned pattern. */
  function Wrap32(x: int): (r: int)
    ensures 0 <= r < TWO_POW_32
    ensures (r - x) % TWO_POW_32 == 0
  {
    x % TWO_POW_32
  }

  /**
   * The loop `h = 31 * h + x` over xs, in 32-bit arithmetic, from seed h.
   * String.hashCode starts it at 0 and Arrays.hashCode(byte[]) at 1.
   */
  function Hash31(h: int, xs: seq<int>): (r: int)
    requires 0 <= h < TWO_POW_32
    ensures 0 <= r < TWO_POW_32
    ensures xs == [] ==> r == h
    decreases |xs|
  {
    if xs == [] then h else Hash31(Wrap32(31 * h + xs[0]), xs[1..])
  }

  /** String.hashCode, as an unsigned 32-bit pattern. */
  function StringHash(s: string): (r: int)
    ensures 0 <= r < TWO_POW_32
  {
    Hash31(0, seq(|s|, i requires 0 <= i < |s| => s[i] as int))
  }

  /** Bitwise exclusive or of two 32-bit patterns. */
  function Xor32(a: int, b: int): (r: int)
    requires 0 <= a < TWO_POW_32 && 0 <= b < TWO_POW_32
    ensures 0 <= r < TWO_POW_32
  {
    ((a as bv32) ^ (b as bv32)) as int
  }
}
