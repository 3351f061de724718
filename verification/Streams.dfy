/**
 * The two streams extractExps copies between: the input stream of a jar
 * entry, which hands out its bytes in reads of whatever size it chooses, and
 * the FileOutputStream the bytes are written to.
 */
module Streams {
  import opened Base

  /** JarFile.getInputStream(entry): the entry's bytes and how many have been read. */
  class EntryStream {
    const data: seq<byte>
    var pos: nat

    ghost predicate Valid()
      reads this
    {
      pos <= |data|
    }

    constructor (data: seq<byte>)
      ensures this.data == data && pos == 0 && Valid()
    {
      this.data := data;
      pos := 0;
    }

    /**
     * InputStream.read(buf): -1 at the end; otherwise at least one and at most
     * buf.Length of the next bytes, placed at the front of buf.
     */
    method Read(buf: array<byte>) returns (r: int)
      requires Valid() && buf.Length > 0
      modifies this, buf
      ensures Valid()
      ensures old(pos) == |data| ==> r == -1 && pos == old(pos)
      ensures old(pos) < |data| ==>
                1 <= r <= buf.Length && pos == old(pos) + r && buf[..r] == data[old(pos)..pos]
    {
      if pos == |data| {
        return -1;
      }
      var n :| 1 <= n <= buf.Length && n <= |data| - pos;
      var j := 0;
      while j < n
        invariant 0 <= j <= n && pos == old(pos)
        invariant forall k :: 0 <= k < j ==> buf[k] == data[pos + k]
      {
        buf[j] := data[pos + j];
        j := j + 1;
      }
      pos := pos + n;
      r := n;
    }
  }

  /** FileOutputStream: the bytes written so far. */
  class FileOutput {
    var written: seq<byte>

    constructor ()
      ensures written == []
    {
      written := [];
    }

    /** write(buf, off, len). */
    method Write(buf: array<byte>, off: int, len: int)
      requires 0 <= off <= off + len <= buf.Length
      modifies this
      ensures written == old(written) + buf[off..off + len]
    {
      written := written + buf[off..off + len];
    }
  }

  /** The copy loop of extractExps: read into a 1024-byte buffer and write what was read, until -1. */
  method Copy(input: EntryStream, output: FileOutput)
    requires input.Valid()
    modifies input, output
    ensures input.Valid() && input.pos == |input.data|
    ensures output.written == old(output.written) + input.data[old(input.pos)..]
  {
    var buf := new byte[1024];
    while true
      invariant input.Valid()
      invariant old(input.pos) <= input.pos
      invariant output.written == old(output.written) + input.data[old(input.pos)..input.pos]
      decreases |input.data| - input.pos
    {
      var r := input.Read(buf);
      if r == -1 {
        break;
      }
      output.Write(buf, 0, r);
    }
  }
}
