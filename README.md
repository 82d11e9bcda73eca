# Silence-gated WAV recorder: a Dafny model

The recorder is the `Recorder` class of `main.js`. It captures 16-bit stereo PCM
at 44.1 kHz in chunks and drops every chunk whose root-mean-square amplitude is
below `SILENCE_THRESHOLD` (2). Once `CHUNK_SIZE` (90) audible chunks have piled
up, a one-second timer packs all of them into one WAV file: a 44-byte RIFF/WAVE
header followed by the raw bytes. That file is kept as `lastBuffer`. On Ctrl+C
the recorder hands `lastBuffer` to `stopRecording` for playback or saving.

The model has five files:

- `wrappers.dfy`: the `Option` and `Result` types.
- `little_endian.dfy`: bytes, 16- and 32-bit little-endian encodings and their readers, and ASCII bytes.
- `wav_header.dfy`: `createWavHeader`.
  - It is a method over a 44-byte `array`. It makes the same thirteen writes as the source, in the same order.
  - Node's `writeUInt16LE` / `writeUInt32LE` are modelled with their range check. A value outside the field's range gives a `RangeError` at that write's offset, and nothing is written.
  - A JavaScript number may be fractional, so it is modelled as a `real`, and the writers store its integer part.
  - The method's contract ties it to a byte-layout function, `WavHeaderBytes`. That function has a reader, `ParseHeader`, and is proved to round-trip through it.
- `silence.dfy`: `isSilent` and `calculateRMS`.
  - A chunk is read as little-endian signed 16-bit samples.
  - The sum of squares is a loop, as in the source.
  - `sqrt(sum / n) < 2` is stated exactly, as `sum / n < 4` over the reals. That is proved equivalent to the integer test `sum < 4 * n`.
- `recorder.dfy`: the `Recorder` state.
  - The state is `audioChunks` and `lastBuffer`, held in a class.
  - It covers the `data` handler, `prepareBuffer`, and the buffer that `onForceExit` / `stopRecording` end up with. Two scenario methods are verified clients of the class's contracts.

Three behaviours of `main.js` that the model keeps as written:

- An empty chunk is not silent. Its RMS is `sqrt(0 / 0)`, which is NaN, and NaN is not below the threshold. So the chunk is kept.
- A flush does not take exactly 90 chunks. At the timer tick it takes every chunk accumulated so far, and there can be more than 90.
- At shutdown the last flushed file wins, and chunks accumulated after it are dropped. With no flush yet, `stopRecording` calls `Buffer.concat(null)`, which throws. It does not produce an empty WAV file. See "## Findings".

## Model

| member | source | states |
|---|---|---|
| LittleEndian.LE16RoundTrip | main.js:184 | every value up to 0xFFFF is recovered from the two bytes that `writeUInt16LE` stores |
| LittleEndian.LE32RoundTrip | main.js:180 | every value up to 0xFFFFFFFF is recovered from the four bytes that `writeUInt32LE` stores |
| WavHeader.WriteAscii | main.js:179 | `buffer.write` of an ASCII tag puts its bytes at the offset and leaves the rest of the buffer alone |
| WavHeader.WriteUInt16LE | main.js:184-189 | succeeds iff 0 <= value <= 0xFFFF; then stores the little-endian bytes of the value's integer part at the offset, else changes nothing (RangeError) |
| WavHeader.WriteUInt32LE | main.js:180-187 | succeeds iff 0 <= value <= 0xFFFFFFFF; then stores the little-endian bytes of the value's integer part, else changes nothing |
| WavHeader.FirstBadOffset | main.js:177-194 | a failing header write can only be at offset 4, 22, 24, 28, 32 or 34 |
| WavHeader.ByteRateValue | main.js:187 | the byte rate `sampleRate * numChannels * (bitsPerSample / 8)` as a real: in range iff its integer eighths test passes, and its stored integer part is that test's quotient |
| WavHeader.BlockAlignValue | main.js:188 | the same for the block align `numChannels * (bitsPerSample / 8)` |
| WavHeader.WriteRiffDescriptor | main.js:179-181 | offsets 0-11 hold "RIFF", dataSize + 36 and "WAVE", or the write at offset 4 fails |
| WavHeader.WriteFormatFields | main.js:185-189 | offsets 22-35 hold channels, sample rate, byte rate, block align and bits per sample, or the result names the first field that does not fit |
| WavHeader.WriteFmtChunk | main.js:182-189 | offsets 12-35 hold "fmt ", 16, PCM format 1 and the format fields, or the first failing offset |
| WavHeader.WriteDataChunkHeader | main.js:190-191 | offsets 36-43 hold "data" and the data size |
| WavHeader.CreateWavHeader | main.js:177-194 | returns the 44 header bytes when every field fits; otherwise the RangeError of the first write that does not fit, in the source's write order |
| WavHeader.HeaderLayout | main.js:178-191 | every tag and field of the header sits at its fixed offset with its value, for example RIFF size = dataSize + 36 at 4 and data size at 40 |
| WavHeader.WholeByteSampleRates | main.js:187-188 | for whole-byte samples, the stored byte rate is sampleRate * numChannels * (bitsPerSample / 8) and the block align is numChannels * (bitsPerSample / 8), with no truncation |
| WavHeader.ParseHeader | main.js:177-194 | a header accepted by the reader is at least 44 bytes long and declares the data size stored at offset 40 |
| WavHeader.HeaderRoundTrip | main.js:177-194 | reading back any header that `createWavHeader` produces gives back exactly its arguments |
| WavHeader.HeaderInjective | main.js:177-194 | different arguments never produce the same header |
| Silence.Int16LE | main.js:144 | two bytes read as a signed 16-bit little-endian sample: lo + 256 * hi, less 65536 when the top bit is set |
| Silence.Silent | main.js:145-146 | the `rms < SILENCE_THRESHOLD` decision: a chunk is silent iff it has at least one sample and the mean of its squared samples is below 4; a silent chunk is never empty |
| Silence.Samples | main.js:144 | the `Int16Array` view of a chunk has half as many samples, and sample i is bytes 2i and 2i+1 |
| Silence.CalculateSumOfSquares | main.js:149-157 | the loop returns the sum of the squared samples, which is at most n * 2^30 for n samples |
| Silence.SumSquaresBound | main.js:150-154 | the accumulated sum never exceeds n * 2^30 |
| Silence.MeanSquareBelow | main.js:145-146 | the mean square is below a bound iff the sum of squares is below bound * n |
| Silence.IsSilent | main.js:143-147 | a chunk is silent iff it has at least one sample and its mean square is below 4; equivalently, sum of squares < 4 * n |
| Silence.AllZeroChunkSilent | main.js:143-157 | a non-empty chunk of zero bytes is silent |
| Silence.ConstantChunk | main.js:143-157 | a chunk whose samples all equal a has mean square a * a, and is silent iff -2 < a < 2 |
| Silence.EmptyChunkNotSilent | main.js:151-156 | an empty chunk is not silent |
| RecorderModel.Concat | main.js:161-169 | `Buffer.concat`: the bytes of the chunks, one chunk after another in list order; a list of one buffer concatenates to that buffer |
| RecorderModel.ConcatAppend | main.js:161 | `Buffer.concat` of two chunk lists one after the other is the two concatenations joined |
| RecorderModel.ConcatChunkAt | main.js:161 | each chunk appears whole and in order in the concatenation, at the offset given by the chunks before it |
| RecorderModel.RecordingParamsFit | main.js:163-168 | the recording format fits the header for every payload that the RIFF size allows |
| RecorderModel.EncodeWav | main.js:161-169 | the flushed file is a well-formed recording-format WAV whose bytes after the header are the concatenated chunks |
| RecorderModel.RecordingWavParses | main.js:163-169 | such a file parses back to 2 channels, 44100 Hz, 16 bits, with the payload length as its data size |
| RecorderModel.RecordingFormatFields | main.js:163-168 | the header stores 2 channels, 44100 Hz, byte rate 176400, block align 4, 16 bits, and the payload length as data size |
| RecorderModel.EncodeChunks | main.js:161-169 | concatenates the chunks and prepends the header; fails with RangeError at offset 4 exactly when the payload is too large for the RIFF size |
| RecorderModel.Recorder.constructor | main.js:19-23 | a new recorder holds no chunks and no last buffer |
| RecorderModel.Recorder.OnData | main.js:42-46 | a chunk is appended iff it is not silent; nothing else changes; only audible chunks are ever held |
| RecorderModel.Recorder.PrepareBuffer | main.js:159-175 | below 90 chunks nothing changes; from 90 on, all chunks become one WAV file that is returned and kept as `lastBuffer`, and the list is emptied; a header error leaves the state unchanged |
| RecorderModel.Recorder.FinalBuffer | main.js:87-96 | at shutdown the result is the last flushed file (a well-formed WAV) iff one exists, and otherwise the TypeError of `Buffer.concat(null)` |
| RecorderModel.IntendedFinalBuffer | main.js:91-93 | corrected shutdown: the last flushed file, or else a well-formed WAV of the chunks accumulated so far |
| RecorderModel.NothingRecordedShutdown | main.js:91-93 | with the correction, a shutdown that had nothing to record yields a bare 44-byte header declaring an empty payload |
| RecorderScenarios.FrameLoudness | main.js:143-147 | every audible frame of the scenario (the one sample 10 + k) is not silent, and its quiet frame (sample 0) is silent |
| RecorderScenarios.LoudPayload | main.js:161 | concatenating the first n audible frames gives their samples 10, 11, ..., 9 + n in arrival order, each with a zero high byte |
| RecorderScenarios.LoudRecording | main.js:161-169 | the file for the first 90 audible frames fits the header, is 224 bytes long, and its payload holds samples 10 to 99 in arrival order |
| RecorderScenarios.FeedFrames | main.js:42-46 | feeding 96 frames, six of them quiet, leaves exactly the 90 loud ones, all different, in the order they arrived |
| RecorderScenarios.SilenceGatedRun | main.js:159-175 | after that feed, the flush yields the WAV of the 90 loud frames with their samples in arrival order; one more loud frame stays unflushed, and shutdown returns the flushed file without it |
| RecorderScenarios.ShutdownBeforeFirstFlush | main.js:112-115 | shutdown before any flush fails as written, and with the correction yields an empty 44-byte recording |

## Left out

- Audio capture through `node-record-lpcm16` (`setupRecording`, `record`, `recording.stop()`): the model receives chunks as the arguments of `Recorder.OnData`.
- The one-second `setInterval` timer in `processAudioChunks`, and the `SAVE_PARTIAL` routing that saves or transcribes a flushed file: a flush is a call to `Recorder.PrepareBuffer`, and what happens to its file is not modelled.
- `transcribeAudio`: a network request to the transcription service.
- `slowType`: timed terminal output.
- `getRandomName`: file names from `Math.random`.
- `playAudioBuffer` and `saveAsWav`: file system and audio playback.
- The play-or-save branch of `stopRecording`, `process.exit`, and the SIGINT handler: the model stops at the buffer `stopRecording` would hand on (`Recorder.FinalBuffer`).
- The second `prepareBuffer` call in the `null` branch of `stopRecording`: it is never reached as written, because `Buffer.concat(null)` throws first.
- What follows a failed flush: `Recorder.PrepareBuffer` reports the RangeError, but the unhandled rejection in the timer callback is not modelled.
- Silence.IsSilent: uses exact real arithmetic instead of floating-point `Math.sqrt` and division. The JavaScript sum is exact while it stays below 2^53, and `Silence.SumSquaresBound` keeps it there for chunks of fewer than 2^23 samples. Rounding near the threshold is not modelled.
- RecorderModel.Recorder.OnData: requires an even-length chunk, and `Silence.Samples` reads the chunk's own bytes. The source builds the `Int16Array` over the chunk's whole underlying `ArrayBuffer`, which may be a larger pooled buffer, and an odd-length buffer throws there.
- Silence.Samples: assumes a little-endian host, as `Int16Array` uses the platform's byte order.
- WavHeader.CreateWavHeader: its arguments are natural numbers. Negative or fractional channel counts, sample rates, sample sizes and data sizes are not modelled. The fractional byte rate and block align that come from `bitsPerSample / 8` are modelled.
- `Buffer.concat`'s own limit on the total buffer length is not modelled; only the header's 32-bit size fields bound the payload.
- The Ctrl+C handler can run between timer ticks and data events. Each model method runs to completion, as JavaScript callbacks do.
- `mic.js` and `split-wav.js` are not part of this model.

## Findings

| source | as written | input that shows it | evidently intended | confidence | as-written member | corrected member |
|---|---|---|---|---|---|---|
| main.js:91-93 | with no flushed file yet, `onForceExit` passes the `null` `lastBuffer` into `stopRecording`, which calls `Buffer.concat` on it; that throws a TypeError, and whatever was recorded is lost | Ctrl+C before 90 audible chunks have been flushed (`RecorderScenarios.ShutdownBeforeFirstFlush`) | encode the chunks accumulated so far into a WAV file | medium, not executed | RecorderModel.Recorder.FinalBuffer | RecorderModel.IntendedFinalBuffer |
