/** The canonical 44-byte RIFF/WAVE header for uncompressed PCM that
    `Recorder.createWavHeader` fills in (main.js:177-194), a reader for it,
    and the Node `Buffer` writes it is made of. */
module WavHeader {
  import opened Wrappers
  import opened LittleEndian

  const HeaderSize: nat := 44
  /** `WAVE_FORMAT_PCM` */
  const PcmFormat: nat := 1
  /** Size of the `fmt ` chunk body for PCM. */
  const FmtChunkSize: nat := 16

  /** The arguments of `createWavHeader`. */
  datatype WavParams = WavParams(numChannels: nat, sampleRate: nat, bitsPerSample: nat, dataSize: nat)

  /** Node's `ERR_OUT_OF_RANGE`, raised by the write at `offset`. */
  datatype HeaderError = RangeError(offset: nat)

  /** Eight times the byte rate `sampleRate * numChannels * (bitsPerSample / 8)`.
      JavaScript divides exactly, so the byte rate itself may be fractional. */
  function ByteRateTimes8(p: WavParams): nat
  {
    p.sampleRate * p.numChannels * p.bitsPerSample
  }

  /** Eight times the block align `numChannels * (bitsPerSample / 8)`. */
  function BlockAlignTimes8(p: WavParams): nat
  {
    p.numChannels * p.bitsPerSample
  }

  /** The first of the format fields (offsets 22 to 35) whose value lies
      outside its field's unsigned range, in the order they are written. */
  function FormatFieldError(p: WavParams): (r: Option<nat>)
    ensures r.Some? ==> r.value in {22, 24, 28, 32, 34}
  {
    if p.numChannels > MaxU16 then Some(22)
    else if p.sampleRate > MaxU32 then Some(24)
    else if ByteRateTimes8(p) > 8 * MaxU32 then Some(28)
    else if BlockAlignTimes8(p) > 8 * MaxU16 then Some(32)
    else if p.bitsPerSample > MaxU16 then Some(34)
    else None
  }

  /** The offset of the first write whose value does not fit, in the order
      `createWavHeader` makes them; `None` when all fit. The data size at
      offset 40 cannot fail once the RIFF size at offset 4 has succeeded. */
  function FirstBadOffset(p: WavParams): (r: Option<nat>)
    ensures r.Some? ==> r.value in {4, 22, 24, 28, 32, 34}
  {
    if p.dataSize + 36 > MaxU32 then Some(4) else FormatFieldError(p)
  }

  predicate Fits(p: WavParams)
  {
    FirstBadOffset(p).None?
  }

  /** Offsets 22 to 35: channel count, sample rate, byte rate, block align
      and bits per sample. A fractional byte rate or block align is stored
      as its integer part, as Node's writers do. */
  function FormatFields(p: WavParams): (r: seq<Byte>)
    requires FormatFieldError(p).None?
    ensures |r| == 14
  {
    LE16(p.numChannels) + LE32(p.sampleRate) + LE32(ByteRateTimes8(p) / 8)
    + LE16(BlockAlignTimes8(p) / 8) + LE16(p.bitsPerSample)
  }

  /** Offsets 0 to 11, the RIFF chunk descriptor: "RIFF", the size of the
      rest of the file, "WAVE". */
  function RiffDescriptor(dataSize: nat): (r: seq<Byte>)
    requires dataSize + 36 <= MaxU32
    ensures |r| == 12
  {
    AsciiBytes("RIFF") + LE32(dataSize + 36) + AsciiBytes("WAVE")
  }

  /** Offsets 12 to 35, the `fmt ` sub-chunk: its id, its size 16, the PCM
      format tag and the format fields. */
  function FmtChunk(p: WavParams): (r: seq<Byte>)
    requires FormatFieldError(p).None?
    ensures |r| == 24
  {
    AsciiBytes("fmt ") + LE32(FmtChunkSize) + LE16(PcmFormat) + FormatFields(p)
  }

  /** Offsets 36 to 43, the head of the `data` sub-chunk: its id and size. */
  function DataChunkHeader(dataSize: nat): (r: seq<Byte>)
    requires dataSize <= MaxU32
    ensures |r| == 8
  {
    AsciiBytes("data") + LE32(dataSize)
  }

  /** The header layout: the reference that the byte-by-byte fill of
      `CreateWavHeader` is proved against. */
  function WavHeaderBytes(p: WavParams): seq<Byte>
    requires Fits(p)
  {
    RiffDescriptor(p.dataSize) + FmtChunk(p) + DataChunkHeader(p.dataSize)
  }

  /** `buf.write(s, offset)` for an ASCII string that fits in the buffer. */
  method WriteAscii(buf: array<Byte>, s: string, offset: nat, ghost written: seq<Byte>)
    requires IsAscii(s) && offset + |s| <= buf.Length
    requires buf[..offset] == written
    modifies buf
    ensures buf[..offset + |s|] == written + AsciiBytes(s)
    ensures buf[offset + |s|..] == old(buf[offset + |s|..])
  {
    var i := 0;
    while i < |s|
      invariant 0 <= i <= |s|
      invariant buf[..offset + i] == written + AsciiBytes(s)[..i]
      invariant buf[offset + i..] == old(buf[offset + i..])
    {
      buf[offset + i] := s[i] as int;
      i := i + 1;
    }
  }

  /** `buf.writeUInt16LE(value, offset)`: a RangeError unless
      0 <= value <= 0xFFFF, otherwise the integer part of `value` is stored. */
  method WriteUInt16LE(buf: array<Byte>, value: real, offset: nat, ghost written: seq<Byte>) returns (ok: bool)
    requires offset + 2 <= buf.Length
    requires buf[..offset] == written
    modifies buf
    ensures ok <==> 0.0 <= value <= MaxU16 as real
    ensures ok ==> buf[..offset + 2] == written + LE16(value.Floor)
    ensures ok ==> buf[offset + 2..] == old(buf[offset + 2..])
    ensures !ok ==> buf[..] == old(buf[..])
  {
    ok := 0.0 <= value <= MaxU16 as real;
    if ok {
      var bytes := LE16(value.Floor);
      buf[offset] := bytes[0];
      buf[offset + 1] := bytes[1];
    }
  }

  /** `buf.writeUInt32LE(value, offset)`: a RangeError unless
      0 <= value <= 0xFFFFFFFF, otherwise the integer part of `value` is stored. */
  method WriteUInt32LE(buf: array<Byte>, value: real, offset: nat, ghost written: seq<Byte>) returns (ok: bool)
    requires offset + 4 <= buf.Length
    requires buf[..offset] == written
    modifies buf
    ensures ok <==> 0.0 <= value <= MaxU32 as real
    ensures ok ==> buf[..offset + 4] == written + LE32(value.Floor)
    ensures ok ==> buf[offset + 4..] == old(buf[offset + 4..])
    ensures !ok ==> buf[..] == old(buf[..])
  {
    ok := 0.0 <= value <= MaxU32 as real;
    if ok {
      var bytes := LE32(value.Floor);
      buf[offset] := bytes[0];
      buf[offset + 1] := bytes[1];
      buf[offset + 2] := bytes[2];
      buf[offset + 3] := bytes[3];
    }
  }

  /** The JavaScript number `a * (b / 8)` compared with a field's maximum and
      truncated to an integer, in terms of the integer `a * b`. */
  lemma EighthsAsInteger(a: nat, b: nat, max: nat)
    ensures (a as real * (b as real / 8.0) <= max as real) <==> a * b <= 8 * max
    ensures (a as real * (b as real / 8.0)).Floor == a * b / 8
  {
    var x := a as real * (b as real / 8.0);
    assert x == (a * b) as real / 8.0;
  }

  /** The JavaScript number `sampleRate * numChannels * (bitsPerSample / 8)`
      that `createWavHeader` writes at offset 28. */
  function ByteRateValue(p: WavParams): (x: real)
    ensures 0.0 <= x
    ensures x <= MaxU32 as real <==> ByteRateTimes8(p) <= 8 * MaxU32
    ensures x.Floor == ByteRateTimes8(p) / 8
  {
    EighthsAsInteger(p.sampleRate * p.numChannels, p.bitsPerSample, MaxU32);
    (p.sampleRate * p.numChannels) as real * (p.bitsPerSample as real / 8.0)
  }

  /** The JavaScript number `numChannels * (bitsPerSample / 8)` that
      `createWavHeader` writes at offset 32. */
  function BlockAlignValue(p: WavParams): (x: real)
    ensures 0.0 <= x
    ensures x <= MaxU16 as real <==> BlockAlignTimes8(p) <= 8 * MaxU16
    ensures x.Floor == BlockAlignTimes8(p) / 8
  {
    EighthsAsInteger(p.numChannels, p.bitsPerSample, MaxU16);
    p.numChannels as real * (p.bitsPerSample as real / 8.0)
  }

  /** The writes of `createWavHeader` at offsets 22 to 34 (main.js:185-189). */
  method WriteFormatFields(buf: array<Byte>, p: WavParams, ghost written: seq<Byte>) returns (bad: Option<nat>)
    requires buf.Length == HeaderSize && buf[..22] == written
    modifies buf
    ensures bad == FormatFieldError(p)
    ensures bad.None? ==> buf[..36] == written + FormatFields(p)
  {
    var ok := WriteUInt16LE(buf, p.numChannels as real, 22, written);
    if !ok {
      return Some(22);
    }
    ghost var w := written + LE16(p.numChannels);
    ok := WriteUInt32LE(buf, p.sampleRate as real, 24, w);
    if !ok {
      return Some(24);
    }
    w := w + LE32(p.sampleRate);
    ok := WriteUInt32LE(buf, ByteRateValue(p), 28, w);
    if !ok {
      return Some(28);
    }
    w := w + LE32(ByteRateTimes8(p) / 8);
    ok := WriteUInt16LE(buf, BlockAlignValue(p), 32, w);
    if !ok {
      return Some(32);
    }
    w := w + LE16(BlockAlignTimes8(p) / 8);
    ok := WriteUInt16LE(buf, p.bitsPerSample as real, 34, w);
    if !ok {
      return Some(34);
    }
    w := w + LE16(p.bitsPerSample);
    assert w == written + FormatFields(p);
    bad := None;
  }

  /** The writes of `createWavHeader` at offsets 0 to 8 (main.js:179-181). */
  method WriteRiffDescriptor(buf: array<Byte>, dataSize: nat) returns (ok: bool)
    requires buf.Length == HeaderSize
    modifies buf
    ensures ok <==> dataSize + 36 <= MaxU32
    ensures ok ==> buf[..12] == RiffDescriptor(dataSize)
  {
    ghost var w := AsciiBytes("RIFF");
    WriteAscii(buf, "RIFF", 0, []);
    assert buf[..4] == w;
    ok := WriteUInt32LE(buf, (dataSize + 36) as real, 4, w);
    if ok {
      w := w + LE32(dataSize + 36);
      WriteAscii(buf, "WAVE", 8, w);
      assert buf[..12] == w + AsciiBytes("WAVE");
    }
  }

  /** The writes of `createWavHeader` at offsets 12 to 34 (main.js:182-189). */
  method WriteFmtChunk(buf: array<Byte>, p: WavParams, ghost written: seq<Byte>) returns (bad: Option<nat>)
    requires buf.Length == HeaderSize && buf[..12] == written
    modifies buf
    ensures bad == FormatFieldError(p)
    ensures bad.None? ==> buf[..36] == written + FmtChunk(p)
  {
    WriteAscii(buf, "fmt ", 12, written);
    ghost var w := written + AsciiBytes("fmt ");
    var ok := WriteUInt32LE(buf, FmtChunkSize as real, 16, w);
    w := w + LE32(FmtChunkSize);
    ok := WriteUInt16LE(buf, PcmFormat as real, 20, w);
    w := w + LE16(PcmFormat);
    bad := WriteFormatFields(buf, p, w);
    if bad.None? {
      assert w + FormatFields(p) == written + FmtChunk(p);
    }
  }

  /** The writes of `createWavHeader` at offsets 36 and 40 (main.js:190-191). */
  method WriteDataChunkHeader(buf: array<Byte>, dataSize: nat, ghost written: seq<Byte>)
    requires buf.Length == HeaderSize && buf[..36] == written
    requires dataSize <= MaxU32
    modifies buf
    ensures buf[..] == written + DataChunkHeader(dataSize)
  {
    WriteAscii(buf, "data", 36, written);
    var ok := WriteUInt32LE(buf, dataSize as real, 40, written + AsciiBytes("data"));
    assert buf[..] == buf[..HeaderSize];
  }

  /** `createWavHeader`: a zero-filled 44-byte buffer written field by field;
      the first out-of-range write throws and no header is produced. */
  method CreateWavHeader(p: WavParams) returns (r: Result<seq<Byte>, HeaderError>)
    ensures Fits(p) ==> r == Ok(WavHeaderBytes(p))
    ensures !Fits(p) ==> r == Err(RangeError(FirstBadOffset(p).value))
  {
    var buf := new Byte[HeaderSize](_ => 0);
    var ok := WriteRiffDescriptor(buf, p.dataSize);
    if !ok {
      return Err(RangeError(4));
    }
    var bad := WriteFmtChunk(buf, p, RiffDescriptor(p.dataSize));
    if bad.Some? {
      return Err(RangeError(bad.value));
    }
    WriteDataChunkHeader(buf, p.dataSize, RiffDescriptor(p.dataSize) + FmtChunk(p));
    r := Ok(buf[..]);
  }

  /** Reads a canonical PCM header back: the magic markers, a `fmt ` chunk
      of size 16 holding format 1, a byte rate and block align consistent
      with the other fields, and a RIFF size 36 more than the data size. */
  function ParseHeader(h: seq<Byte>): (r: Option<WavParams>)
    ensures r.Some? ==> |h| >= HeaderSize && r.value.dataSize == U32At(h, 40)
  {
    if |h| < HeaderSize then None
    else if h[0..4] != AsciiBytes("RIFF") || h[8..12] != AsciiBytes("WAVE")
         || h[12..16] != AsciiBytes("fmt ") || h[36..40] != AsciiBytes("data") then None
    else if U32At(h, 16) != FmtChunkSize || U16At(h, 20) != PcmFormat then None
    else
      var p := WavParams(U16At(h, 22), U32At(h, 24), U16At(h, 34), U32At(h, 40));
      if U32At(h, 4) != p.dataSize + 36 then None
      else if U32At(h, 28) != ByteRateTimes8(p) / 8 || U16At(h, 32) != BlockAlignTimes8(p) / 8 then None
      else Some(p)
  }

  lemma U16Field(h: seq<Byte>, off: nat, v: nat)
    requires v <= MaxU16 && off + 2 <= |h| && h[off..off + 2] == LE16(v)
    ensures U16At(h, off) == v
  {
    LE16RoundTrip(v);
    U16AtSlice(h, off);
  }

  lemma U32Field(h: seq<Byte>, off: nat, v: nat)
    requires v <= MaxU32 && off + 4 <= |h| && h[off..off + 4] == LE32(v)
    ensures U32At(h, off) == v
  {
    LE32RoundTrip(v);
    U32AtSlice(h, off);
  }

  /** Where each field of the header lies and what it reads back as. */
  lemma HeaderLayout(p: WavParams)
    requires Fits(p)
    ensures var h := WavHeaderBytes(p);
      && |h| == HeaderSize
      && h[0..4] == AsciiBytes("RIFF") && h[8..12] == AsciiBytes("WAVE")
      && h[12..16] == AsciiBytes("fmt ") && h[36..40] == AsciiBytes("data")
      && U32At(h, 4) == p.dataSize + 36
      && U32At(h, 16) == FmtChunkSize
      && U16At(h, 20) == PcmFormat
      && U16At(h, 22) == p.numChannels
      && U32At(h, 24) == p.sampleRate
      && U32At(h, 28) == ByteRateTimes8(p) / 8
      && U16At(h, 32) == BlockAlignTimes8(p) / 8
      && U16At(h, 34) == p.bitsPerSample
      && U32At(h, 40) == p.dataSize
  {
    var h := WavHeaderBytes(p);
    var f := FormatFields(p);
    assert h[..12] == RiffDescriptor(p.dataSize);
    assert h[12..36] == FmtChunk(p);
    assert h[36..] == DataChunkHeader(p.dataSize);
    assert f[0..2] == LE16(p.numChannels);
    assert f[2..6] == LE32(p.sampleRate);
    assert f[6..10] == LE32(ByteRateTimes8(p) / 8);
    assert f[10..12] == LE16(BlockAlignTimes8(p) / 8);
    assert f[12..14] == LE16(p.bitsPerSample);
    assert h[22..36] == f;
    U32Field(h, 4, p.dataSize + 36);
    U32Field(h, 16, FmtChunkSize);
    U16Field(h, 20, PcmFormat);
    U16Field(h, 22, p.numChannels);
    U32Field(h, 24, p.sampleRate);
    U32Field(h, 28, ByteRateTimes8(p) / 8);
    U16Field(h, 32, BlockAlignTimes8(p) / 8);
    U16Field(h, 34, p.bitsPerSample);
    U32Field(h, 40, p.dataSize);
  }

  /** For whole-byte samples the byte rate and block align written at
      offsets 28 and 32 (see `HeaderLayout`) are exact:
      `sampleRate * numChannels * (bitsPerSample / 8)` and
      `numChannels * (bitsPerSample / 8)`. */
  lemma WholeByteSampleRates(p: WavParams)
    requires p.bitsPerSample % 8 == 0
    ensures ByteRateTimes8(p) / 8 == p.sampleRate * p.numChannels * (p.bitsPerSample / 8)
    ensures BlockAlignTimes8(p) / 8 == p.numChannels * (p.bitsPerSample / 8)
  {
    WholeEighths(p.sampleRate * p.numChannels, p.bitsPerSample);
    WholeEighths(p.numChannels, p.bitsPerSample);
  }

  lemma WholeEighths(a: nat, b: nat)
    requires b % 8 == 0
    ensures a * b / 8 == a * (b / 8)
  {
    var k := b / 8;
    assert a * b == 8 * (a * k) by {
      assert b == 8 * k;
    }
  }

  /** Decoding the encoded header recovers every argument of `createWavHeader`. */
  lemma HeaderRoundTrip(p: WavParams)
    requires Fits(p)
    ensures ParseHeader(WavHeaderBytes(p)) == Some(p)
  {
    HeaderLayout(p);
  }

  /** Different arguments never give the same header bytes. */
  lemma HeaderInjective(p: WavParams, q: WavParams)
    requires Fits(p) && Fits(q) && WavHeaderBytes(p) == WavHeaderBytes(q)
    ensures p == q
  {
    HeaderRoundTrip(p);
    HeaderRoundTrip(q);
  }
}
