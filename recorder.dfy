/** The recorder's state machine (`class Recorder`, main.js:18-175): chunks
    that pass the silence test are collected in `audioChunks`; once there are
    `CHUNK_SIZE` of them, all of them are encoded as one WAV file, which is
    kept in `lastBuffer`; on shutdown `lastBuffer` is what gets saved. */
module RecorderModel {
  import opened Wrappers
  import opened LittleEndian
  import opened WavHeader
  import opened Silence

  /** `CHUNK_SIZE` (main.js:14): how many kept chunks trigger a flush. */
  const ChunkSize: nat := 90

  /** The format `prepareBuffer` encodes with: 2 channels at 44100 Hz,
      16 bits per sample. */
  function RecordingParams(dataSize: nat): WavParams
  {
    WavParams(2, 44100, 16, dataSize)
  }

  /** `Buffer.concat`: the bytes of the chunks, one chunk after another. */
  function Concat(chunks: seq<seq<Byte>>): (r: seq<Byte>)
    ensures |chunks| == 1 ==> r == chunks[0]
  {
    if chunks == [] then [] else Concat(chunks[..|chunks| - 1]) + chunks[|chunks| - 1]
  }

  lemma {:induction false} ConcatAppend(a: seq<seq<Byte>>, b: seq<seq<Byte>>)
    ensures Concat(a + b) == Concat(a) + Concat(b)
  {
    if b == [] {
      assert a + b == a;
    } else {
      var init, last := b[..|b| - 1], b[|b| - 1];
      assert (a + b)[..|a + b| - 1] == a + init;
      assert (a + b)[|a + b| - 1] == last;
      ConcatAppend(a, init);
      assert Concat(b) == Concat(init) + last;
    }
  }

  /** Every chunk appears whole in the concatenation, right after the bytes
      of the chunks before it: none is dropped, cut or reordered. */
  lemma ConcatChunkAt(chunks: seq<seq<Byte>>, i: nat)
    requires i < |chunks|
    ensures var off := |Concat(chunks[..i])|;
      && off + |chunks[i]| <= |Concat(chunks)|
      && Concat(chunks)[off..off + |chunks[i]|] == chunks[i]
  {
    var before, after := chunks[..i], chunks[i + 1..];
    assert chunks == before + [chunks[i]] + after;
    ConcatAppend(before + [chunks[i]], after);
    ConcatAppend(before, [chunks[i]]);
  }

  /** The payload is small enough for the header's 32-bit size fields. */
  predicate PayloadFits(chunks: seq<seq<Byte>>)
  {
    |Concat(chunks)| + 36 <= MaxU32
  }

  /** With the recording format only the RIFF size at offset 4 can overflow. */
  lemma RecordingParamsFit(dataSize: nat)
    ensures Fits(RecordingParams(dataSize)) <==> dataSize + 36 <= MaxU32
    ensures !Fits(RecordingParams(dataSize)) ==> FirstBadOffset(RecordingParams(dataSize)) == Some(4)
  {
  }

  /** A WAV file in the recording format: the canonical header for exactly
      the payload that follows it. */
  predicate IsRecordingWav(w: seq<Byte>)
  {
    && |w| >= HeaderSize
    && |w| - HeaderSize + 36 <= MaxU32
    && w[..HeaderSize] == WavHeaderBytes(RecordingParams(|w| - HeaderSize))
  }

  /** A reader of such a file finds the recording format and a data size
      equal to the length of the payload. */
  lemma RecordingWavParses(w: seq<Byte>)
    requires IsRecordingWav(w)
    ensures ParseHeader(w[..HeaderSize]) == Some(RecordingParams(|w| - HeaderSize))
    ensures U32At(w, 40) == |w| - HeaderSize
  {
    var p := RecordingParams(|w| - HeaderSize);
    HeaderRoundTrip(p);
    HeaderLayout(p);
    U32AtSlice(w, 40);
    U32AtSlice(w[..HeaderSize], 40);
  }

  /** The file `prepareBuffer` builds from the accumulated chunks. */
  function EncodeWav(chunks: seq<seq<Byte>>): (w: seq<Byte>)
    requires PayloadFits(chunks)
    ensures IsRecordingWav(w)
    ensures w[HeaderSize..] == Concat(chunks)
  {
    var p := RecordingParams(|Concat(chunks)|);
    HeaderLayout(p);
    var w := WavHeaderBytes(p) + Concat(chunks);
    assert w[..HeaderSize] == WavHeaderBytes(p);
    w
  }

  /** What a reader of a recorded file finds in its format block: 2
      channels, 44100 Hz, 176400 bytes per second, 4-byte frames, 16 bits. */
  lemma RecordingFormatFields(chunks: seq<seq<Byte>>)
    requires PayloadFits(chunks)
    ensures var w := EncodeWav(chunks);
      && U16At(w, 22) == 2 && U32At(w, 24) == 44100
      && U32At(w, 28) == 176400 && U16At(w, 32) == 4 && U16At(w, 34) == 16
      && U32At(w, 40) == |w| - HeaderSize
  {
    var p := RecordingParams(|Concat(chunks)|);
    RecordingParamsFit(p.dataSize);
    HeaderLayout(p);
    var w := EncodeWav(chunks);
    assert w[..HeaderSize] == WavHeaderBytes(p);
    U16AtSlice(w, 22);
    U32AtSlice(w, 24);
    U32AtSlice(w, 28);
    U16AtSlice(w, 32);
    U16AtSlice(w, 34);
    U32AtSlice(w, 40);
    U16AtSlice(WavHeaderBytes(p), 22);
    U32AtSlice(WavHeaderBytes(p), 24);
    U32AtSlice(WavHeaderBytes(p), 28);
    U16AtSlice(WavHeaderBytes(p), 32);
    U16AtSlice(WavHeaderBytes(p), 34);
    U32AtSlice(WavHeaderBytes(p), 40);
  }

  /** The encoding step of `prepareBuffer` (main.js:161-169): concatenate
      the chunks, build the header for that many bytes and put it in front. */
  method EncodeChunks(chunks: seq<seq<Byte>>) returns (r: Result<seq<Byte>, HeaderError>)
    ensures PayloadFits(chunks) ==> r == Ok(EncodeWav(chunks))
    ensures !PayloadFits(chunks) ==> r == Err(RangeError(4))
  {
    var audioBuffer := Concat(chunks);
    var dataSize := |audioBuffer|;
    RecordingParamsFit(dataSize);
    var wavHeader := CreateWavHeader(RecordingParams(dataSize));
    match wavHeader {
      case Err(e) =>
        r := Err(e);
      case Ok(h) =>
        r := Ok(h + audioBuffer);
    }
  }

  /** Every chunk is a whole number of samples and passed the silence test. */
  ghost predicate AllAudible(chunks: seq<seq<Byte>>)
  {
    forall c | c in chunks :: |c| % 2 == 0 && !Silent(c)
  }

  /** The outcome of `prepareBuffer`: nothing (`undefined`), the new WAV
      file, or the RangeError thrown by `createWavHeader`. */
  datatype Flush = NotDue | Flushed(wav: seq<Byte>) | Failed(error: HeaderError)

  /** `Buffer.concat(null)` throws a TypeError. */
  datatype ShutdownError = ConcatOfNull

  class Recorder {
    var audioChunks: seq<seq<Byte>>
    var lastBuffer: Option<seq<Byte>>

    /** Only chunks that passed the silence test are held, and a kept file
        is a well-formed WAV in the recording format. */
    ghost predicate Valid()
      reads this
    {
      AllAudible(audioChunks) && (lastBuffer.Some? ==> IsRecordingWav(lastBuffer.value))
    }

    constructor ()
      ensures Valid() && audioChunks == [] && lastBuffer == None
    {
      audioChunks := [];
      lastBuffer := None;
    }

    /** The `data` handler installed by `recordOnSilence`. */
    method OnData(chunk: seq<Byte>)
      requires Valid() && |chunk| % 2 == 0
      modifies this
      ensures Valid()
      ensures audioChunks == if Silent(chunk) then old(audioChunks) else old(audioChunks) + [chunk]
      ensures lastBuffer == old(lastBuffer)
    {
      var silent := IsSilent(chunk);
      if !silent {
        audioChunks := audioChunks + [chunk];
      }
    }

    /** `prepareBuffer`: below `CHUNK_SIZE` chunks nothing happens; from
        there on every accumulated chunk goes, in order, into one WAV file
        that becomes `lastBuffer`, and the list is emptied. */
    method PrepareBuffer() returns (r: Flush)
      requires Valid()
      modifies this
      ensures Valid()
      ensures old(|audioChunks|) < ChunkSize ==>
        r == NotDue && audioChunks == old(audioChunks) && lastBuffer == old(lastBuffer)
      ensures old(|audioChunks|) >= ChunkSize && PayloadFits(old(audioChunks)) ==>
        r == Flushed(EncodeWav(old(audioChunks))) && lastBuffer == Some(r.wav) && audioChunks == []
      ensures old(|audioChunks|) >= ChunkSize && !PayloadFits(old(audioChunks)) ==>
        r == Failed(RangeError(4)) && audioChunks == old(audioChunks) && lastBuffer == old(lastBuffer)
    {
      if |audioChunks| < ChunkSize {
        return NotDue;
      }
      var encoded := EncodeChunks(audioChunks);
      match encoded {
        case Err(e) =>
          r := Failed(e);
        case Ok(wavBuffer) =>
          lastBuffer := Some(wavBuffer);
          audioChunks := [];
          r := Flushed(wavBuffer);
      }
    }

    /** The buffer `onForceExit` hands to `stopRecording`, and the branch
        that `stopRecording` takes on it: the last flushed file as it is,
        whatever has accumulated since; before the first flush
        `Buffer.concat(null)` throws. */
    method FinalBuffer() returns (r: Result<seq<Byte>, ShutdownError>)
      requires Valid()
      ensures r.Ok? <==> lastBuffer.Some?
      ensures r.Ok? ==> r.value == lastBuffer.value && IsRecordingWav(r.value)
      ensures r.Err? ==> r.error == ConcatOfNull
    {
      if lastBuffer.None? {
        r := Err(ConcatOfNull);
      } else {
        r := Ok(lastBuffer.value);
      }
    }
  }

  /** The evident intent of `stopRecording` before the first flush: encode
      the chunks accumulated so far instead of concatenating `null`. */
  function IntendedFinalBuffer(lastBuffer: Option<seq<Byte>>, audioChunks: seq<seq<Byte>>): (r: Result<seq<Byte>, HeaderError>)
    ensures lastBuffer.Some? ==> r == Ok(lastBuffer.value)
    ensures lastBuffer.None? && PayloadFits(audioChunks) ==>
      r.Ok? && IsRecordingWav(r.value) && r.value[HeaderSize..] == Concat(audioChunks)
    ensures lastBuffer.None? && !PayloadFits(audioChunks) ==> r == Err(RangeError(4))
  {
    if lastBuffer.Some? then Ok(lastBuffer.value)
    else if PayloadFits(audioChunks) then Ok(EncodeWav(audioChunks))
    else Err(RangeError(4))
  }

  /** Shutdown with nothing flushed and nothing accumulated yields a bare
      header that declares an empty payload. */
  lemma NothingRecordedShutdown()
    ensures var r := IntendedFinalBuffer(None, []);
      r.Ok? && |r.value| == HeaderSize && ParseHeader(r.value) == Some(RecordingParams(0))
  {
    var w := IntendedFinalBuffer(None, []).value;
    RecordingWavParses(w);
    assert w[..HeaderSize] == w;
  }
}

/** Two runs of the recorder, written as clients of the contracts above. */
module RecorderScenarios {
  import opened Wrappers
  import opened LittleEndian
  import opened WavHeader
  import opened Silence
  import opened RecorderModel

  /** The audible frame numbered `k`: the one sample 10 + k (RMS 10 + k),
      so no two audible frames of a run are alike. */
  function LoudFrame(k: nat): seq<Byte>
    requires k < 100
  {
    [10 + k, 0]
  }

  /** A frame holding the one sample 0 (RMS 0). */
  const QuietFrame: seq<Byte> := [0, 0]

  /** The first `n` audible frames, in the order they arrive. */
  function LoudFrames(n: nat): (fs: seq<seq<Byte>>)
    requires n <= 100
    ensures |fs| == n && forall k :: 0 <= k < n ==> fs[k] == LoudFrame(k)
  {
    seq(n, k requires 0 <= k < n => LoudFrame(k))
  }

  lemma OneMoreFrame(n: nat)
    requires n < 100
    ensures LoudFrames(n) + [LoudFrame(n)] == LoudFrames(n + 1)
  {
  }

  lemma FrameLoudness(k: nat)
    requires k < 100
    ensures !Silent(LoudFrame(k)) && Silent(QuietFrame)
  {
    ConstantChunk(LoudFrame(k), 10 + k);
    ConstantChunk(QuietFrame, 0);
  }

  /** The bytes of the first `n` audible frames: the samples 10, 11, ...,
      9 + n, each followed by its zero high byte, in arrival order. */
  lemma {:induction false} LoudPayload(n: nat)
    requires n <= 100
    ensures |Concat(LoudFrames(n))| == 2 * n
    ensures forall j :: 0 <= j < 2 * n ==>
      Concat(LoudFrames(n))[j] == if j % 2 == 0 then 10 + j / 2 else 0
  {
    if n > 0 {
      var fs := LoudFrames(n);
      assert fs[..n - 1] == LoudFrames(n - 1);
      assert fs[n - 1] == LoudFrame(n - 1);
      LoudPayload(n - 1);
      assert Concat(fs) == Concat(LoudFrames(n - 1)) + LoudFrame(n - 1);
    }
  }

  /** The file that encodes the first 90 audible frames fits the header,
      and its payload holds their samples 10 to 99 in arrival order. */
  lemma LoudRecording()
    ensures PayloadFits(LoudFrames(ChunkSize))
    ensures var w := EncodeWav(LoudFrames(ChunkSize));
      && |w| == HeaderSize + 2 * ChunkSize
      && forall k :: 0 <= k < ChunkSize ==> w[HeaderSize + 2 * k] == 10 + k
  {
    var fs := LoudFrames(ChunkSize);
    LoudPayload(ChunkSize);
    var w := EncodeWav(fs);
    forall k | 0 <= k < ChunkSize
      ensures w[HeaderSize + 2 * k] == 10 + k
    {
      assert w[HeaderSize + 2 * k] == Concat(fs)[2 * k];
    }
  }

  /** How many of the first `i` frames of the run below are loud: frames 50
      to 55 are quiet. */
  function LoudAmong(i: nat): nat
  {
    if i <= 50 then i else if i <= 56 then 50 else i - 6
  }

  /** 96 frames arrive, of which frames 50 to 55 are silent. */
  method FeedFrames(rec: Recorder)
    requires rec.Valid() && rec.audioChunks == [] && rec.lastBuffer == None
    modifies rec
    ensures rec.Valid() && rec.audioChunks == LoudFrames(ChunkSize) && rec.lastBuffer == None
  {
    var i := 0;
    while i < 96
      invariant 0 <= i <= 96
      invariant rec.Valid() && rec.lastBuffer == None
      invariant rec.audioChunks == LoudFrames(LoudAmong(i))
    {
      if 50 <= i < 56 {
        assert LoudAmong(i + 1) == LoudAmong(i);
        FrameLoudness(0);
        rec.OnData(QuietFrame);
      } else {
        var k := LoudAmong(i);
        assert LoudAmong(i + 1) == k + 1;
        FrameLoudness(k);
        rec.OnData(LoudFrame(k));
        OneMoreFrame(k);
      }
      i := i + 1;
    }
  }

  /** After the 96 frames the flush encodes the 90 loud ones, in the order
      they arrived. One more loud frame arrives after the flush; shutdown
      still hands over the flushed file, without it. */
  method SilenceGatedRun() returns (flush: Flush, final: Result<seq<Byte>, ShutdownError>, unflushed: nat)
    ensures PayloadFits(LoudFrames(ChunkSize))
      && flush == Flushed(EncodeWav(LoudFrames(ChunkSize)))
    ensures |flush.wav| == HeaderSize + 2 * ChunkSize
    ensures forall k :: 0 <= k < ChunkSize ==> flush.wav[HeaderSize + 2 * k] == 10 + k
    ensures final == Ok(flush.wav)
    ensures unflushed == 1
  {
    LoudRecording();
    var rec := new Recorder();
    FeedFrames(rec);
    flush := rec.PrepareBuffer();
    FrameLoudness(ChunkSize);
    rec.OnData(LoudFrame(ChunkSize));
    final := rec.FinalBuffer();
    unflushed := |rec.audioChunks|;
  }

  /** Shutdown before the first flush: as written it throws, and the
      intended behaviour hands over a WAV file with an empty payload. */
  method ShutdownBeforeFirstFlush() returns (asWritten: Result<seq<Byte>, ShutdownError>, intended: Result<seq<Byte>, HeaderError>)
    ensures asWritten == Err(ConcatOfNull)
    ensures intended.Ok? && |intended.value| == HeaderSize
    ensures ParseHeader(intended.value) == Some(RecordingParams(0))
  {
    var rec := new Recorder();
    asWritten := rec.FinalBuffer();
    intended := IntendedFinalBuffer(rec.lastBuffer, rec.audioChunks);
    NothingRecordedShutdown();
  }
}
