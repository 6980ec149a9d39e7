# pcaudiolib in Dafny

pcaudiolib is a small C library that gives text-to-speech programs one
playback interface over several audio systems. A caller creates an
`audio_object`, then opens it with a sample format, a rate and a channel
count. It writes PCM data, then drains, flushes and closes it. Each backend
(PulseAudio, ALSA, QSA, OSS, sndio, Core Audio) fills in an operation table
of up to seven entries: PulseAudio, ALSA, QSA and Core Audio set all seven,
OSS leaves `strerror` unset, and sndio sets only open, close, destroy and
write. The Windows helpers are not a backend and have no table. `create_audio_device_object`
picks the first backend whose constructor returns an object.

This project models the library's state machines and lookup tables:

- **Audio** (`audio.dfy`) covers the public `audio_object_*` calls. Each one
  tests the object for NULL and otherwise forwards to the object's own
  table. It also covers the dispatcher, which tries backends in priority
  order. A backend is a record of operations over a private state type.
- **Formats** (`formats.dfy`) holds the 38-value `enum audio_object_format`,
  with an independent description of each value: encoding, bits, bytes and
  byte order. **FormatConsistency** checks every backend table against that
  description.
- **CoreAudio** (`coreaudio.dfy`) is a class with the `initialized` and
  `running` flags, the state of the output unit, and the 64 KiB FIFO that
  `write` fills and the realtime callback drains. The callback thread is
  replaced by an explicit interleaving: a schedule of callback batches, one
  before each evaluation of a polling condition. A poll that the schedule
  cannot satisfy returns `blocked`; with that interleaving, the C call never
  returns. A ghost log `played` makes the FIFO's correctness statable: played
  bytes followed by queued bytes equal everything written since the last
  clear.
- **Alsa**, **PulseAudio**, **Oss**, **Qsa** and **Sndio** are one class per
  backend with its handle state. Each holds the format table, the
  "already open" guard, the goto-error path that releases the handle, and
  the write/drain/flush return mapping. Every native call (`snd_pcm_*`,
  `pa_simple_*`, `ioctl`, `sio_*`, …) is a parameter: the status it returns.
  Each operation also returns the list of native calls it made, in order, as
  its observable effect.
- **Windows** (`windows.dfy`) covers the `WAVEFORMATEX` table and arithmetic
  of `CreateWaveFormat`. It also models the line-end trim of
  `windows_hresult_strerror` as an in-place loop over a `char` array, both as
  written and as evidently intended.
- **Native** (`native.dfy`) holds the shared C types, Linux errno values,
  NULL-able values, and the C integer conversions the backends rely on:
  `ssize_t` to `size_t`, values to `int`, `int` to `unsigned int`.

Where the code and the library's documentation disagree, the model follows
the code:

- The dispatcher never tries the sndio or Core Audio constructors.
- The ALSA, QSA and OSS constructors do not probe the device.
- sndio passes the application name to `sio_open` as the device name.
- QSA's `write` returns the byte count, not 0.
- OSS's `open` returns a positive `EEXIST`.

Core Audio's constructor leaves `initialized` and `running` as `malloc`
returns them; the model takes both as false.

## Model

| member | source | states |
|---|---|---|
| Audio.ObjectOpen | src/audio.c:25-33 | NULL object: result 0, no call; otherwise the backend's `open` result and new state |
| Audio.ObjectClose | src/audio.c:36-40 | NULL object: nothing happens; otherwise the object's state after the backend's `close` |
| Audio.ObjectDestroy | src/audio.c:43-47 | NULL object: nothing happens; otherwise the backend's `destroy` is applied |
| Audio.ObjectWrite | src/audio.c:50-57 | NULL object: result 0; otherwise the backend's `write` result for the same data |
| Audio.ObjectDrain | src/audio.c:60-65 | NULL object: result 0; otherwise the backend's `drain` result |
| Audio.ObjectFlush | src/audio.c:68-73 | NULL object: result 0; otherwise the backend's `flush` result |
| Audio.ObjectStrerror | src/audio.c:76-82 | NULL object: NULL; otherwise the backend's message for the code |
| Audio.CreateAudioDeviceObject | src/audio.c:85-99 | the constructors invoked are a non-empty prefix of PulseAudio, ALSA, QSA, OSS; all but the last returned NULL; the object is the last one's; NULL only after all four were tried |
| Audio.CreateIsFirstInPriority | src/audio.c:90-98 | the result is the first non-NULL object in priority order (reference definition `FirstObject`), and NULL when every constructor returns NULL |
| Audio.CallsRouteToChosenBackend | src/audio.c:50-73 | write, drain, flush and close on the returned object return exactly what the chosen backend's operations return |
| Audio.FallbackToThirdBackend | src/audio.c:90-97 | with PulseAudio and ALSA failing and QSA succeeding, the object is QSA's and OSS is never tried |
| Formats.DescribeRoundTrip | src/include/pcaudiolib/audio.h:32-81 | each format's description decodes back to that format, so the name of a format is fully determined by its encoding, width, size and byte order |
| Formats.DescribeInjective | src/include/pcaudiolib/audio.h:32-81 | no two of the 38 formats share an encoding, width, size and byte order |
| Formats.LinearPcmPacking | src/include/pcaudiolib/audio.h:32-81 | a linear sample takes the fewest whole bytes that hold its bits, except the 24-in-32 formats; only 8-bit samples have no byte order |
| CoreAudio.FramesIn | src/coreaudio.c:225 | the whole frames that fit in a byte count: never more bytes than given, and less than one more frame |
| CoreAudio.ChunkSize | src/coreaudio.c:232-235 | a chunk never exceeds the data left or the free space; it is all the data left or all the whole-frame free space; it is non-empty when there is data and room for a frame |
| CoreAudio.CoreAudioObject.constructor | src/coreaudio.c:271-291 | a new object is not initialized, not running, and has an empty buffer |
| CoreAudio.CoreAudioObject.Open | src/coreaudio.c:81-158 | already initialized: `noErr`, nothing changes; a format other than S16LE: -1, still uninitialized; otherwise the first failing native status, or `noErr` with an empty buffer and 2 bytes per channel per frame |
| CoreAudio.CoreAudioObject.Close | src/coreaudio.c:161-171 | idempotent: afterwards uninitialized, unit stopped, buffer empty; `running` is left as it was |
| CoreAudio.CoreAudioObject.CloseIntended | src/coreaudio.c:161-171 | as Close, and also not running, so the running flag again implies a started unit |
| CoreAudio.CoreAudioObject.Clear | src/coreaudio.c:215-217 | the buffer and the played log are empty |
| CoreAudio.CoreAudioObject.Render | src/coreaudio.c:55-78 | not running: silence of the requested length, FIFO untouched; running with less than a frame queued: stops the stream and the unit; otherwise the oldest min(requested, available) frames are dequeued and returned; the played-then-queued stream never changes |
| CoreAudio.CoreAudioObject.RunEngine | src/coreaudio.c:62-76 | a batch of callbacks: only while the unit is started; they never start anything and never change the written stream |
| CoreAudio.CoreAudioObject.WaitForSpace | src/coreaudio.c:225-226 | returns once the buffer has room for a frame or a running stream stopped; blocked only when neither holds after the schedule |
| CoreAudio.CoreAudioObject.Enqueue | src/coreaudio.c:232-239 | a chunk that fits is appended to the buffer, so it is appended to the played-then-queued stream |
| CoreAudio.CoreAudioObject.Dequeue | src/coreaudio.c:76 | the oldest `taken` bytes leave the buffer, in order, and are what is returned and logged as played; the stream is unchanged |
| CoreAudio.CoreAudioObject.Fill | src/coreaudio.c:224-251 | the copy loop: the stream grows by exactly the first `queued` bytes of the data; the unit is started exactly when the stream was stopped at entry, something was queued and the start succeeded; the status is not `noErr` exactly when the start of a stopped stream failed after its first chunk, and then it is the start's status, with that chunk queued; a stream that stops underneath abandons the rest |
| CoreAudio.CoreAudioObject.Write | src/coreaudio.c:207-253 | uninitialized: `noErr`, nothing changes; otherwise the written stream is the old one (cleared first if stopped at entry) followed by the first `queued` bytes of the data, in order; the unit is started exactly when a stopped stream got its first chunk and the start succeeded; the status is not `noErr` exactly when the start of a stopped stream failed after its first chunk, and then it is the start's status, with that chunk queued; a stream that stops underneath abandons the rest |
| CoreAudio.CoreAudioObject.Drain | src/coreaudio.c:181-189 | always `noErr`; the stream is unchanged; when it returns on an initialized object the stream is stopped; a running flag without a started unit never returns |
| CoreAudio.CoreAudioObject.Flush | src/coreaudio.c:192-204 | uninitialized: `noErr`, nothing changes; otherwise the stop status, an empty buffer, not running, and the unit stopped when the stop succeeded |
| CoreAudio.StartOnFirstWrite | src/coreaudio.c:242-246 | on a fresh object, a 1000-byte write queues all of it and starts the unit |
| CoreAudio.ReopenAfterCloseWhilePlaying | src/coreaudio.c:164-169 | as written, close while playing, reopen and a write larger than the buffer: blocked with `running` set and the unit stopped, for every schedule |
| CoreAudio.ReopenAfterIntendedClose | src/coreaudio.c:164-169 | with the intended close the same sequence queues data, and `running` implies the unit is started |
| Alsa.PcmSpecOf | src/alsa.c:50-90 | every format but AC3 has a table row, with a sample size of 1, 2, 3, 4 or 8 |
| Alsa.FormatRoundTrip | src/alsa.c:50-89 | the table is one-to-one: each row's native format leads back to its library format |
| Alsa.PcmRoundTrip | src/alsa.c:50-89 | every native format of the table is reached |
| Alsa.SampleSizes | src/alsa.c:54-85 | 16-bit formats record 2 bytes; 24-in-32, 32-bit and 32-bit float formats record 4; 64-bit float formats record 8 |
| Alsa.DeviceName | src/alsa.c:98 | the configured device, or "default" |
| Alsa.OpenCalls | src/alsa.c:98-113 | the eight calls of `open` in order, with the device name, format, rate and channels they are given |
| Alsa.FrameCountAsWritten | src/alsa.c:181 | the frame count as written: whole samples in the byte count |
| Alsa.FrameCount | src/alsa.c:181 | the frame count as intended: whole frames of `channels` samples |
| Alsa.FrameCountIgnoresChannels | src/alsa.c:181 | one 16-bit stereo frame (4 bytes) is submitted as two frames, 8 bytes |
| Alsa.FrameCountMono | src/alsa.c:181 | the two counts agree for mono |
| Alsa.WriteResult | src/alsa.c:184 | 0 exactly for non-negative statuses, otherwise the status |
| Alsa.AlsaObject.constructor | src/alsa.c:195-216 | no handle, sample size 0, the given device |
| Alsa.AlsaObject.Open | src/alsa.c:40-124 | handle present: `-EEXIST`, nothing changes; format not in the table: `-EINVAL`, no handle; otherwise the first negative status, with the calls up to it, a close once opened, and no handle; or 0 with the handle and all eight calls |
| Alsa.AlsaObject.Close | src/alsa.c:127-135 | idempotent: no handle afterwards; one close call only if there was a handle |
| Alsa.AlsaObject.Drain | src/alsa.c:147-152 | no handle: 0, no call; otherwise the drain status |
| Alsa.AlsaObject.Flush | src/alsa.c:155-160 | no handle: 0, no call; otherwise the drop status |
| Alsa.AlsaObject.Write | src/alsa.c:163-185 | no handle: 0; prepares when neither PREPARED nor RUNNING and returns a failing prepare's status; submits bytes / sample size frames; re-prepares on `-EPIPE`; returns 0 for non-negative results, else the code |
| Alsa.OpenWriteScenario | src/alsa.c:168-184 | after a failed open, write returns 0 without native calls; after a successful one, an accepted write returns 0 |
| PulseAudio.SampleFormatOf | src/pulseaudio.c:56-73 | maps exactly the 9 always-present formats, plus the 4 S24 formats when the build has them |
| PulseAudio.SwitchRoundTrip | src/pulseaudio.c:56-72 | the switch is one-to-one, and the S24 build changes none of the other mappings |
| PulseAudio.SampleSize | src/pulseaudio.c:83 | bytes per sample of each native format, between 1 and 4 |
| PulseAudio.TargetLength | src/pulseaudio.c:83 | the bytes of 10 ms of audio, rounded down, stored in 32 bits |
| PulseAudio.OpenAttr | src/pulseaudio.c:79-83 | only the target length is chosen; the other four attributes are all ones |
| PulseAudio.TargetLengthExamples | src/audio_priv.h:57 | a 10 ms latency is 441 bytes at 22050 Hz mono 16-bit, and 1764 at 44100 Hz stereo |
| PulseAudio.PulseAudioObject.constructor | src/pulseaudio.c:198-205 | no stream, and the three strings kept |
| PulseAudio.PulseAudioObject.Open | src/pulseaudio.c:44-94 | stream present: `PA_ERR_EXIST`, nothing changes; rate and channels stored before the format is checked; an unmapped format: `PA_ERR_INVALID` with no request; otherwise one stream request with the mapped format and the target length, and the stream and error it yields |
| PulseAudio.PulseAudioObject.Close | src/pulseaudio.c:97-105 | idempotent: no stream afterwards, freed only if there was one |
| PulseAudio.PulseAudioObject.Drain | src/pulseaudio.c:119-128 | no stream: 0; otherwise the drain error |
| PulseAudio.PulseAudioObject.Flush | src/pulseaudio.c:131-140 | no stream: 0; otherwise the flush error |
| PulseAudio.PulseAudioObject.Write | src/pulseaudio.c:143-154 | no stream: 0; otherwise the write error |
| PulseAudio.IsAvailable | src/pulseaudio.c:163-188 | no contract; the probe: a stream request with S16LE, 44100 Hz, mono and default attributes, independent of any open, yields a stream |
| PulseAudio.Create | src/pulseaudio.c:191-216 | no object exactly when the probe fails; otherwise a fresh object with no stream |
| PulseAudio.RejectedFormatKeepsRate | src/pulseaudio.c:53-73 | an open rejecting its format has still overwritten the stored rate and channel count |
| Oss.OssFormatOf | src/oss.c:64-77 | accepts exactly the 11 listed formats |
| Oss.SwitchRoundTrip | src/oss.c:64-76 | the switch is one-to-one onto the `AFMT_*` values, and 11 formats are accepted |
| Oss.OssObject.constructor | src/oss.c:153-172 | starts with no descriptor (-1) |
| Oss.OssObject.Open | src/oss.c:54-98 | descriptor present: positive `EEXIST`, nothing changes; unlisted format: `-EINVAL`, descriptor untouched; failed open: its errno; failed ioctl: its errno, the descriptor closed and reset to -1; otherwise 0 with the descriptor |
| Oss.OssObject.Close | src/oss.c:101-109 | as written: acts only without a descriptor (closing -1) and leaves an open one untouched |
| Oss.OssObject.CloseIntended | src/oss.c:101-109 | closes the descriptor if there is one; afterwards -1 |
| Oss.OssObject.Drain | src/oss.c:121-128 | issues the sync ioctl on whatever descriptor there is; errno when it fails, else 0 |
| Oss.OssObject.Flush | src/oss.c:131-138 | issues the reset ioctl; errno when it fails, else 0 |
| Oss.OssObject.Write | src/oss.c:141-150 | errno when the write fails, else 0 (a short write is success) |
| Oss.ReopenAfterClose | src/oss.c:105-108 | as written, open, close, open: close makes no call and the second open returns `EEXIST` |
| Oss.ReopenAfterIntendedClose | src/oss.c:105-108 | with the intended close the descriptor is closed and the second open succeeds |
| Qsa.QsaSpecOf | src/qsa.c:53-59 | only U8 and S8 (1 byte) and S16LE (2 bytes) |
| Qsa.TableRoundTrip | src/qsa.c:56-58 | the table is one-to-one and onto its three native formats |
| Qsa.OpenCalls | src/qsa.c:69-106 | the five calls of `open`: open by name or the preferred device, then info, plugin info, params with rate/voices/format, prepare |
| Qsa.QsaObject.constructor | src/qsa.c:192-213 | no handle, sample size 0, the given device |
| Qsa.QsaObject.Open | src/qsa.c:43-115 | handle present: `-EEXIST`; unlisted format: `-EINVAL`; otherwise the first negative status with the handle closed and cleared, or 0 with the handle |
| Qsa.QsaObject.Close | src/qsa.c:118-126 | idempotent: no handle afterwards; one close only if there was one |
| Qsa.Write | src/qsa.c:154-182 | written ≥ requested (after `size_t` conversion): that count; otherwise a failing status or an unhandled state returns the status; READY or UNDERRUN re-prepares; a retry only if the prepare returned 0 and nothing was written |
| Qsa.WriteExamples | src/qsa.c:160-181 | a full write returns 1000; a failed write (-1) reads as a huge count and returns -1; a short healthy write returns 0; an empty write after underrun is retried |
| Sndio.GetBits | src/sndio.c:40-92 | 8/16/18/20/24/32 for the integer groups; -1 for the 24-in-32 formats and every non-integer format, so it is defined exactly on the integer formats other than 24-in-32 |
| Sndio.IsSig | src/sndio.c:95-130 | 1 exactly for the 13 signed integer formats, 0 exactly for the 13 unsigned ones, -1 otherwise |
| Sndio.IsLe | src/sndio.c:133-165 | 1 exactly for the 10 little-endian formats, 0 exactly for the big-endian and 8-bit ones, -1 for the 32-bit integer formats and every non-integer format |
| Sndio.RequestedPar | src/sndio.c:183-202 | each classifier's answer unless it is -1, which leaves "no preference"; the rate, no recording, the playback channels |
| Sndio.SentinelNeverAgrees | src/sndio.c:210-215 | a device reporting real values never agrees with a -1 answer, and otherwise agrees exactly when it reports the requested encoding |
| Sndio.SndioObject.constructor | src/sndio.c:254-272 | no handle, and the two strings kept |
| Sndio.SndioObject.Open | src/sndio.c:168-218 | handle present: -1; 0 exactly when every call succeeds and bits, sig and le agree; failures after `sio_open` keep the handle |
| Sndio.SndioObject.Close | src/sndio.c:221-229 | idempotent: no handle afterwards |
| Sndio.SndioObject.Write | src/sndio.c:242-251 | no handle: 0; otherwise 1 exactly when the full count was written |
| Sndio.FloatNeverOpens | src/sndio.c:185-215 | FLOAT32LE can never open, and keeps its handle |
| Windows.WaveSpecOf | src/windows.c:68-78 | exactly the 7 listed formats have a (tag, bits) row, with 8, 16, 32 or 64 bits |
| Windows.TableRoundTrip | src/windows.c:70-76 | no two accepted formats share a (tag, bits) pair |
| Windows.CreateWaveFormatEx | src/windows.c:38-57 | failed allocation: `E_OUTOFMEMORY` and NULL; otherwise `S_OK` and a block of one sample per channel in whole bytes, byte rate = rate × block (32-bit), `cbSize` 0 |
| Windows.CreateWaveFormat | src/windows.c:60-79 | NULL output: `E_INVALIDARG`, nothing written; unlisted format: `E_INVALIDARG`; `S_OK` exactly for a listed format with an allocation, with its tag and bits |
| Windows.CdQuality | src/windows.c:48-54 | 16-bit stereo at 44100 Hz: 4-byte blocks, 176400 bytes a second |
| Windows.TrimAsWrittenRemovesLineEnds | src/windows.c:91-93 | as written, a trim that stays inside the message returns a non-empty prefix and removes only '\n' and '\r' |
| Windows.ReadsBeforeStartExactly | src/windows.c:92 | as written, the loop reads `msg[-1]` exactly for an empty message or one of '\r' followed only by line ends |
| Windows.TrimExamples | src/windows.c:92 | "\n" is kept, "\r" reads before the message, "…\r\n" loses both |
| Windows.TrimLineEndsAsWritten | src/windows.c:91-93 | the loop over the buffer: zeroes what it removes, leaves the prefix that `TrimAsWritten` gives, and reports the out-of-bounds read exactly when it happens |
| Windows.TrimIntendedRemovesLineEnds | src/windows.c:91-93 | the intended trim returns the longest prefix not ending in a line end, removing only line ends |
| Windows.TrimIntendedIdempotent | src/windows.c:91-93 | trimming twice is trimming once |
| Windows.AsWrittenAgreesWithIntended | src/windows.c:92 | where the written loop stays inside the message it agrees with the intended trim, except it keeps a lone "\n" |
| Windows.TrimLineEnds | src/windows.c:91-93 | the intended loop over the buffer leaves exactly `TrimIntended` and zeroes the rest |
| Windows.HresultStrerror | src/windows.c:81-98 | NULL when the system has no message; otherwise the message trimmed as written, with the out-of-bounds read reported |
| FormatConsistency.BytesPerSample | src/include/pcaudiolib/audio.h:32-81 | the bytes of one sample for linear, float, A-law and µ-law formats; none for the others |
| FormatConsistency.AlsaSampleSize | src/alsa.c:54-89 | every ALSA sample size is the described one, and 1 for IEC958, ADPCM, MPEG and GSM |
| FormatConsistency.PulseAudioSampleSize | src/pulseaudio.c:58-72 | PulseAudio's sample size for each mapped format is the described one |
| FormatConsistency.QsaSampleSize | src/qsa.c:56-58 | QSA plays only linear PCM of the described size, never big-endian |
| FormatConsistency.OssEncodings | src/oss.c:66-76 | OSS takes linear PCM of at most 16 bits, besides A-law, µ-law, ADPCM, MPEG and AC3 |
| FormatConsistency.SndioClassifiers | src/sndio.c:40-165 | the sndio classifiers give the described width, signedness and byte order wherever they answer, and they answer exactly where stated |
| FormatConsistency.WindowsBits | src/windows.c:70-76 | Windows asks for the described width with the tag of the described encoding |
| FormatConsistency.S16LEEverywhere | src/alsa.c:58 | S16LE is accepted by every backend table |
| Native.FirstFailure | src/alsa.c:98-113 | the first status a chain of checked calls stops at: all before it succeeded, it failed; none exactly when all succeed |

## Left out

- Audio I/O: no sample reaches a device; every native library call is a
  parameter (its status and results). Numeric values of native format
  codes are not modelled, only their names.
- The library's real threads: the Core Audio callback runs on the audio
  engine's thread. The model interleaves whole callbacks between poll checks.
  It does not model a callback that runs while a chunk is being copied.
  Memory ordering and `usleep` timing are not modelled.
- Termination of the polling loops is not claimed. A poll that the schedule
  cannot satisfy returns `blocked`.
- `TPCircularBuffer` internals and `AudioBufferList` layout: the FIFO is a
  bounded byte sequence, frames are bytes / bytes per frame.
- xaudio2.cpp: every branch is COM and XAudio2 calls with a process-wide
  callback singleton.
- Memory management: `malloc`/`strdup` failures in the constructors,
  `destroy` (which only frees), the unfreed ALSA `params` on success, and the
  `strdup` of the Windows message.
- String lookups (`snd_strerror`, `pa_strerror`, `GetMacOSStatusCommentString`)
  and `FormatMessageA` (its message is a parameter). `str2wcs` is not part of
  this model.
- QSA's `drain` and `flush`: single foreign calls on a possibly NULL handle.
  The vtable entries that sndio and OSS leave NULL are also not modelled.
- Core Audio's `coreaudio_is_available` and the other constructors' missing
  probes: the dispatcher is modelled over any constructor function.
- Core Audio `Open` keeps only what the model needs from
  `AudioStreamBasicDescription`: rate, channels, bytes per frame.
- PulseAudio.TargetLength: the `size_t` product is taken as unbounded before
  the 32-bit store.
- Windows.CreateWaveFormatEx: `nBlockAlign` is at most 255 × 64 / 8, so its
  16-bit store never truncates; the model states this rather than wrapping.

## Findings

| source | as written | input that shows it | evidently intended | confidence | as-written member | corrected member |
|---|---|---|---|---|---|---|
| src/oss.c:105 | `close` tests `fd == -1`, so it closes -1 and leaves an open descriptor open | open succeeds, close, open again: `EEXIST` | test `fd != -1` | high, not executed | Oss.ReopenAfterClose | Oss.ReopenAfterIntendedClose |
| src/coreaudio.c:164-169 | `close` tears the unit down but leaves `running` set | write two bytes (unit started), close, open, write 65538 bytes: the write never returns | `close` also clears `running` | medium, not executed | CoreAudio.ReopenAfterCloseWhilePlaying | CoreAudio.ReopenAfterIntendedClose |
| src/alsa.c:181 | `snd_pcm_writei` is given bytes / sample size, which counts samples, not frames | 4 bytes of 16-bit stereo: 2 frames (8 bytes) submitted | bytes / (sample size × channels) | high, not executed | Alsa.FrameCountIgnoresChannels | Alsa.FrameCount |
| src/windows.c:92 | the `len > 1` test guards only the '\n' comparison, because `&&` binds tighter than the or: '\r' is removed at any length, and at length 0 the condition reads `msg[-1]` | message "\r": reads `msg[-1]`; message "\n" is kept | stop at length 0 and remove either line end | high, not executed | Windows.ReadsBeforeStartExactly | Windows.TrimIntendedRemovesLineEnds |
