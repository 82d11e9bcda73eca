/** Bytes and the little-endian unsigned fields that Node's `Buffer`
    writes (`writeUInt16LE`, `writeUInt32LE`) and a WAV reader reads back. */
module LittleEndian {

  type Byte = b: int | 0 <= b < 0x100

  const MaxU16: nat := 0xFFFF
  const MaxU32: nat := 0xFFFF_FFFF

  /** The two bytes of `v`, least significant first. */
  function LE16(v: nat): (r: seq<Byte>)
    requires v <= MaxU16
    ensures |r| == 2
  {
    [v % 0x100, v / 0x100]
  }

  /** The four bytes of `v`, least significant first. */
  function LE32(v: nat): (r: seq<Byte>)
    requires v <= MaxU32
    ensures |r| == 4
  {
    LE16(v % 0x1_0000) + LE16(v / 0x1_0000)
  }

  /** The unsigned 16-bit little-endian field at `off`. */
  function U16At(s: seq<Byte>, off: nat): (v: nat)
    requires off + 2 <= |s|
    ensures v <= MaxU16
  {
    s[off] as int + 0x100 * s[off + 1] as int
  }

  /** The unsigned 32-bit little-endian field at `off`. */
  function U32At(s: seq<Byte>, off: nat): (v: nat)
    requires off + 4 <= |s|
    ensures v <= MaxU32
  {
    U16At(s, off) + 0x1_0000 * U16At(s, off + 2)
  }

  lemma LE16RoundTrip(v: nat)
    requires v <= MaxU16
    ensures U16At(LE16(v), 0) == v
  {
  }

  /** Reading back a written 32-bit field gives the value written. */
  lemma LE32RoundTrip(v: nat)
    requires v <= MaxU32
    ensures U32At(LE32(v), 0) == v
  {
    var lo, hi := LE16(v % 0x1_0000), LE16(v / 0x1_0000);
    LE16RoundTrip(v % 0x1_0000);
    LE16RoundTrip(v / 0x1_0000);
    assert LE32(v)[..2] == lo && LE32(v)[2..] == hi;
    assert U16At(LE32(v), 0) == U16At(lo, 0);
    assert U16At(LE32(v), 2) == U16At(hi, 0);
  }

  /** A field keeps its value when the bytes around it change:
      it depends only on the bytes it occupies. */
  lemma U32AtSlice(s: seq<Byte>, off: nat)
    requires off + 4 <= |s|
    ensures U32At(s, off) == U32At(s[off..off + 4], 0)
  {
  }

  lemma U16AtSlice(s: seq<Byte>, off: nat)
    requires off + 2 <= |s|
    ensures U16At(s, off) == U16At(s[off..off + 2], 0)
  {
  }

  /** The 7-bit character codes of an ASCII string: what `buf.write(s, off)`
      stores for such a string (its UTF-8 encoding). */
  predicate IsAscii(s: string)
  {
    forall i :: 0 <= i < |s| ==> s[i] as int < 0x80
  }

  function AsciiBytes(s: string): (r: seq<Byte>)
    requires IsAscii(s)
    ensures |r| == |s|
  {
    seq(|s|, i requires 0 <= i < |s| => s[i] as int)
  }
}
