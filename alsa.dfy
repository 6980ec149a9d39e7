/** The ALSA backend: the `FORMAT` table, the handle guard and goto-error
    path of `open`, and the state check, frame count and underrun recovery of
    `write`.  The `snd_pcm_*` calls are parameters: the statuses they return,
    and the list of calls made, in order, as the observable effect. */
module Alsa {
  import opened Native
  import opened Formats

  /** The `snd_pcm_format_t` values the table uses. */
  datatype PcmFormat =
    | SND_PCM_FORMAT_A_LAW | SND_PCM_FORMAT_MU_LAW
    | SND_PCM_FORMAT_S8 | SND_PCM_FORMAT_U8
    | SND_PCM_FORMAT_S16_LE | SND_PCM_FORMAT_S16_BE | SND_PCM_FORMAT_U16_LE | SND_PCM_FORMAT_U16_BE
    | SND_PCM_FORMAT_S18_3LE | SND_PCM_FORMAT_S18_3BE | SND_PCM_FORMAT_U18_3LE | SND_PCM_FORMAT_U18_3BE
    | SND_PCM_FORMAT_S20_3LE | SND_PCM_FORMAT_S20_3BE | SND_PCM_FORMAT_U20_3LE | SND_PCM_FORMAT_U20_3BE
    | SND_PCM_FORMAT_S24_3LE | SND_PCM_FORMAT_S24_3BE | SND_PCM_FORMAT_U24_3LE | SND_PCM_FORMAT_U24_3BE
    | SND_PCM_FORMAT_S24_LE | SND_PCM_FORMAT_S24_BE | SND_PCM_FORMAT_U24_LE | SND_PCM_FORMAT_U24_BE
    | SND_PCM_FORMAT_S32_LE | SND_PCM_FORMAT_S32_BE | SND_PCM_FORMAT_U32_LE | SND_PCM_FORMAT_U32_BE
    | SND_PCM_FORMAT_FLOAT_LE | SND_PCM_FORMAT_FLOAT_BE | SND_PCM_FORMAT_FLOAT64_LE | SND_PCM_FORMAT_FLOAT64_BE
    | SND_PCM_FORMAT_IEC958_SUBFRAME_LE | SND_PCM_FORMAT_IEC958_SUBFRAME_BE
    | SND_PCM_FORMAT_IMA_ADPCM | SND_PCM_FORMAT_MPEG | SND_PCM_FORMAT_GSM

  /** A table row: the native format and the sample size `open` records. */
  datatype PcmSpec = PcmSpec(format: PcmFormat, sampleSize: nat)

  /** The `FORMAT` table of `alsa_object_open`; None is the `default` case. */
  function PcmSpecOf(f: Format): (r: Option<PcmSpec>)
    ensures r.None? <==> f == AC3
    ensures r.Some? ==> (r.value.sampleSize == 1 || r.value.sampleSize == 2 || r.value.sampleSize == 3 || r.value.sampleSize == 4 || r.value.sampleSize == 8)
  {
    match f
    case ALAW => Some(PcmSpec(SND_PCM_FORMAT_A_LAW, 1))
    case ULAW => Some(PcmSpec(SND_PCM_FORMAT_MU_LAW, 1))
    case S8 => Some(PcmSpec(SND_PCM_FORMAT_S8, 1))
    case U8 => Some(PcmSpec(SND_PCM_FORMAT_U8, 1))
    case S16LE => Some(PcmSpec(SND_PCM_FORMAT_S16_LE, 2))
    case S16BE => Some(PcmSpec(SND_PCM_FORMAT_S16_BE, 2))
    case U16LE => Some(PcmSpec(SND_PCM_FORMAT_U16_LE, 2))
    case U16BE => Some(PcmSpec(SND_PCM_FORMAT_U16_BE, 2))
    case S18LE => Some(PcmSpec(SND_PCM_FORMAT_S18_3LE, 3))
    case S18BE => Some(PcmSpec(SND_PCM_FORMAT_S18_3BE, 3))
    case U18LE => Some(PcmSpec(SND_PCM_FORMAT_U18_3LE, 3))
    case U18BE => Some(PcmSpec(SND_PCM_FORMAT_U18_3BE, 3))
    case S20LE => Some(PcmSpec(SND_PCM_FORMAT_S20_3LE, 3))
    case S20BE => Some(PcmSpec(SND_PCM_FORMAT_S20_3BE, 3))
    case U20LE => Some(PcmSpec(SND_PCM_FORMAT_U20_3LE, 3))
    case U20BE => Some(PcmSpec(SND_PCM_FORMAT_U20_3BE, 3))
    case S24LE => Some(PcmSpec(SND_PCM_FORMAT_S24_3LE, 3))
    case S24BE => Some(PcmSpec(SND_PCM_FORMAT_S24_3BE, 3))
    case U24LE => Some(PcmSpec(SND_PCM_FORMAT_U24_3LE, 3))
    case U24BE => Some(PcmSpec(SND_PCM_FORMAT_U24_3BE, 3))
    case S24_32LE => Some(PcmSpec(SND_PCM_FORMAT_S24_LE, 4))
    case S24_32BE => Some(PcmSpec(SND_PCM_FORMAT_S24_BE, 4))
    case U24_32LE => Some(PcmSpec(SND_PCM_FORMAT_U24_LE, 4))
    case U24_32BE => Some(PcmSpec(SND_PCM_FORMAT_U24_BE, 4))
    case S32LE => Some(PcmSpec(SND_PCM_FORMAT_S32_LE, 4))
    case S32BE => Some(PcmSpec(SND_PCM_FORMAT_S32_BE, 4))
    case U32LE => Some(PcmSpec(SND_PCM_FORMAT_U32_LE, 4))
    case U32BE => Some(PcmSpec(SND_PCM_FORMAT_U32_BE, 4))
    case FLOAT32LE => Some(PcmSpec(SND_PCM_FORMAT_FLOAT_LE, 4))
    case FLOAT32BE => Some(PcmSpec(SND_PCM_FORMAT_FLOAT_BE, 4))
    case FLOAT64LE => Some(PcmSpec(SND_PCM_FORMAT_FLOAT64_LE, 8))
    case FLOAT64BE => Some(PcmSpec(SND_PCM_FORMAT_FLOAT64_BE, 8))
    case IEC958LE => Some(PcmSpec(SND_PCM_FORMAT_IEC958_SUBFRAME_LE, 1))
    case IEC958BE => Some(PcmSpec(SND_PCM_FORMAT_IEC958_SUBFRAME_BE, 1))
    case ADPCM => Some(PcmSpec(SND_PCM_FORMAT_IMA_ADPCM, 1))
    case MPEG => Some(PcmSpec(SND_PCM_FORMAT_MPEG, 1))
    case GSM => Some(PcmSpec(SND_PCM_FORMAT_GSM, 1))
    case AC3 => None
  }

  /** The inverse of the table: the library format each native format serves. */
  function FormatOfPcm(p: PcmFormat): Format
  {
    match p
    case SND_PCM_FORMAT_A_LAW => ALAW
    case SND_PCM_FORMAT_MU_LAW => ULAW
    case SND_PCM_FORMAT_S8 => S8
    case SND_PCM_FORMAT_U8 => U8
    case SND_PCM_FORMAT_S16_LE => S16LE
    case SND_PCM_FORMAT_S16_BE => S16BE
    case SND_PCM_FORMAT_U16_LE => U16LE
    case SND_PCM_FORMAT_U16_BE => U16BE
    case SND_PCM_FORMAT_S18_3LE => S18LE
    case SND_PCM_FORMAT_S18_3BE => S18BE
    case SND_PCM_FORMAT_U18_3LE => U18LE
    case SND_PCM_FORMAT_U18_3BE => U18BE
    case SND_PCM_FORMAT_S20_3LE => S20LE
    case SND_PCM_FORMAT_S20_3BE => S20BE
    case SND_PCM_FORMAT_U20_3LE => U20LE
    case SND_PCM_FORMAT_U20_3BE => U20BE
    case SND_PCM_FORMAT_S24_3LE => S24LE
    case SND_PCM_FORMAT_S24_3BE => S24BE
    case SND_PCM_FORMAT_U24_3LE => U24LE
    case SND_PCM_FORMAT_U24_3BE => U24BE
    case SND_PCM_FORMAT_S24_LE => S24_32LE
    case SND_PCM_FORMAT_S24_BE => S24_32BE
    case SND_PCM_FORMAT_U24_LE => U24_32LE
    case SND_PCM_FORMAT_U24_BE => U24_32BE
    case SND_PCM_FORMAT_S32_LE => S32LE
    case SND_PCM_FORMAT_S32_BE => S32BE
    case SND_PCM_FORMAT_U32_LE => U32LE
    case SND_PCM_FORMAT_U32_BE => U32BE
    case SND_PCM_FORMAT_FLOAT_LE => FLOAT32LE
    case SND_PCM_FORMAT_FLOAT_BE => FLOAT32BE
    case SND_PCM_FORMAT_FLOAT64_LE => FLOAT64LE
    case SND_PCM_FORMAT_FLOAT64_BE => FLOAT64BE
    case SND_PCM_FORMAT_IEC958_SUBFRAME_LE => IEC958LE
    case SND_PCM_FORMAT_IEC958_SUBFRAME_BE => IEC958BE
    case SND_PCM_FORMAT_IMA_ADPCM => ADPCM
    case SND_PCM_FORMAT_MPEG => MPEG
    case SND_PCM_FORMAT_GSM => GSM
  }

  /** The round trip for the 8-bit and companded formats. */
  lemma RoundTrip8(f: Format)
    ensures f.S8? || f.U8? || f.ALAW? || f.ULAW? ==> FormatOfPcm(PcmSpecOf(f).value.format) == f
  {
  }

  /** The round trip for the 16-bit formats. */
  lemma RoundTrip16(f: Format)
    ensures f.S16LE? || f.S16BE? || f.U16LE? || f.U16BE? ==> FormatOfPcm(PcmSpecOf(f).value.format) == f
  {
  }

  /** The round trip for the 18-bit formats. */
  lemma RoundTrip18(f: Format)
    ensures f.S18LE? || f.S18BE? || f.U18LE? || f.U18BE? ==> FormatOfPcm(PcmSpecOf(f).value.format) == f
  {
  }

  /** The round trip for the 20-bit formats. */
  lemma RoundTrip20(f: Format)
    ensures f.S20LE? || f.S20BE? || f.U20LE? || f.U20BE? ==> FormatOfPcm(PcmSpecOf(f).value.format) == f
  {
  }

  /** The round trip for the packed 24-bit formats. */
  lemma RoundTrip24(f: Format)
    ensures f.S24LE? || f.S24BE? || f.U24LE? || f.U24BE? ==> FormatOfPcm(PcmSpecOf(f).value.format) == f
  {
  }

  /** The round trip for the 24-bit formats in 32 bits. */
  lemma RoundTrip24In32(f: Format)
    ensures f.S24_32LE? || f.S24_32BE? || f.U24_32LE? || f.U24_32BE? ==> FormatOfPcm(PcmSpecOf(f).value.format) == f
  {
  }

  /** The round trip for the 32-bit integer formats. */
  lemma RoundTrip32(f: Format)
    ensures f.S32LE? || f.S32BE? || f.U32LE? || f.U32BE? ==> FormatOfPcm(PcmSpecOf(f).value.format) == f
  {
  }

  /** The round trip for the float formats. */
  lemma RoundTripFloat(f: Format)
    ensures f.FLOAT32LE? || f.FLOAT32BE? || f.FLOAT64LE? || f.FLOAT64BE? ==> FormatOfPcm(PcmSpecOf(f).value.format) == f
  {
  }

  /** The round trip for the IEC958 formats. */
  lemma RoundTripIec958(f: Format)
    ensures f.IEC958LE? || f.IEC958BE? ==> FormatOfPcm(PcmSpecOf(f).value.format) == f
  {
  }

  /** The round trip for the compressed formats. */
  lemma RoundTripCompressed(f: Format)
    ensures f.ADPCM? || f.MPEG? || f.GSM? ==> FormatOfPcm(PcmSpecOf(f).value.format) == f
  {
  }

  /** The table is one-to-one: every accepted format has its own native
      format, which leads back to it. */
  lemma FormatRoundTrip(f: Format)
    ensures PcmSpecOf(f).Some? ==> FormatOfPcm(PcmSpecOf(f).value.format) == f
  {
    RoundTrip8(f);
    RoundTrip16(f);
    RoundTrip18(f);
    RoundTrip20(f);
    RoundTrip24(f);
    RoundTrip24In32(f);
    RoundTrip32(f);
    RoundTripFloat(f);
    RoundTripIec958(f);
    RoundTripCompressed(f);
  }

  /** Every native format of the table is reached. */
  lemma PcmRoundTrip(p: PcmFormat)
    ensures PcmSpecOf(FormatOfPcm(p)).Some? && PcmSpecOf(FormatOfPcm(p)).value.format == p
  {
  }

  /** The sample sizes quoted for the common families. */
  lemma SampleSizes(f: Format)
    ensures f in {S16LE, S16BE, U16LE, U16BE} ==> PcmSpecOf(f).value.sampleSize == 2
    ensures f in {S24_32LE, S24_32BE, U24_32LE, U24_32BE, S32LE, S32BE, U32LE, U32BE, FLOAT32LE, FLOAT32BE} ==>
      PcmSpecOf(f).value.sampleSize == 4
    ensures f in {FLOAT64LE, FLOAT64BE} ==> PcmSpecOf(f).value.sampleSize == 8
  {
  }

  /** `snd_pcm_state_t`. */
  datatype PcmState =
    | SND_PCM_STATE_OPEN | SND_PCM_STATE_SETUP | SND_PCM_STATE_PREPARED | SND_PCM_STATE_RUNNING
    | SND_PCM_STATE_XRUN | SND_PCM_STATE_DRAINING | SND_PCM_STATE_PAUSED | SND_PCM_STATE_SUSPENDED
    | SND_PCM_STATE_DISCONNECTED

  /** The native calls the backend makes. */
  datatype AlsaCall =
    | PcmOpen(name: string)
    | HwParamsAny
    | HwParamsSetAccessInterleaved
    | HwParamsSetFormat(format: PcmFormat)
    | HwParamsSetRateNear(rate: Uint32)
    | HwParamsSetChannels(channels: Uint8)
    | HwParams
    | PcmPrepare
    | PcmClose
    | PcmGetState
    | PcmWritei(frames: nat)
    | PcmDrain
    | PcmDrop

  /** The device `open` asks for: the configured one, or "default". */
  function DeviceName(device: CStr): (r: string)
    ensures device.Some? ==> r == device.value
    ensures device.None? ==> r == "default"
  {
    if device.Some? then device.value else "default"
  }

  /** The eight calls of a successful `open`, in order. */
  function OpenCalls(device: CStr, format: PcmFormat, rate: Uint32, channels: Uint8): (r: seq<AlsaCall>)
    ensures |r| == 8
    ensures r[0] == PcmOpen(DeviceName(device)) && r[3] == HwParamsSetFormat(format)
    ensures r[4] == HwParamsSetRateNear(rate) && r[5] == HwParamsSetChannels(channels)
    ensures r[7] == PcmPrepare
  {
    [PcmOpen(DeviceName(device)), HwParamsAny, HwParamsSetAccessInterleaved, HwParamsSetFormat(format),
     HwParamsSetRateNear(rate), HwParamsSetChannels(channels), HwParams, PcmPrepare]
  }

  /** The frame count `write` passes to `snd_pcm_writei`, as written. */
  function FrameCountAsWritten(bytes: nat, sampleSize: nat): (r: nat)
    requires sampleSize > 0
    ensures r * sampleSize <= bytes < (r + 1) * sampleSize
  {
    bytes / sampleSize
  }

  /** The frame count as evidently intended: whole frames of `channels`
      interleaved samples. */
  function FrameCount(bytes: nat, sampleSize: nat, channels: nat): (r: nat)
    requires sampleSize > 0 && channels > 0
    ensures r * (sampleSize * channels) <= bytes < (r + 1) * (sampleSize * channels)
  {
    bytes / (sampleSize * channels)
  }

  /** As written, one stereo 16-bit frame (4 bytes) is submitted as two
      frames, so `snd_pcm_writei` reads 8 bytes from a 4-byte buffer. */
  lemma FrameCountIgnoresChannels()
    ensures FrameCountAsWritten(4, 2) == 2 && FrameCount(4, 2, 2) == 1
    ensures FrameCountAsWritten(4, 2) * (2 * 2) > 4
  {
  }

  /** The two counts agree exactly for mono streams. */
  lemma FrameCountMono(bytes: nat, sampleSize: nat)
    requires sampleSize > 0
    ensures FrameCount(bytes, sampleSize, 1) == FrameCountAsWritten(bytes, sampleSize)
  {
  }

  /** The value `write` returns for a status: 0 for success, the code otherwise. */
  function WriteResult(err: int): (r: int)
    ensures r <= 0
    ensures r == 0 <==> err >= 0
    ensures r != 0 ==> r == err
  {
    if err >= 0 then 0 else err
  }

  class AlsaObject {
    /** The `snd_pcm_t *` (None for NULL), identified by the value
        `snd_pcm_open` produced. */
    var handle: Option<nat>
    var sampleSize: nat
    const device: CStr

    ghost predicate Valid()
      reads this
    {
      handle.Some? ==> sampleSize in {1, 2, 3, 4, 8}
    }

    /** `create_alsa_object`. */
    constructor (device: CStr)
      ensures Valid()
      ensures handle.None? && sampleSize == 0 && this.device == device
    {
      handle := None;
      sampleSize := 0;
      this.device := device;
    }

    /** `alsa_object_open`.  `pcm` is the handle `snd_pcm_open` would produce
        and `results` the statuses of the eight calls of `OpenCalls`. */
    method Open(format: Format, rate: Uint32, channels: Uint8, pcm: nat, results: seq<int>)
      returns (err: int, calls: seq<AlsaCall>)
      requires Valid()
      requires |results| == 8
      modifies this
      ensures Valid()
      ensures old(handle).Some? ==>
        err == -EEXIST && calls == [] && handle == old(handle) && sampleSize == old(sampleSize)
      ensures old(handle).None? && PcmSpecOf(format).None? ==>
        err == -EINVAL && calls == [] && handle.None? && sampleSize == old(sampleSize)
      ensures old(handle).None? && PcmSpecOf(format).Some? ==>
        var spec := PcmSpecOf(format).value;
        && sampleSize == spec.sampleSize
        && match FirstFailure(results, s => s >= 0)
           case Some(i) =>
             && err == results[i] && err < 0 && handle.None?
             && calls == OpenCalls(device, spec.format, rate, channels)[..i + 1] + (if i == 0 then [] else [PcmClose])
           case None =>
             err == 0 && handle == Some(pcm) && calls == OpenCalls(device, spec.format, rate, channels)
    {
      if handle.Some? {
        return -EEXIST, [];
      }
      var spec := PcmSpecOf(format);
      if spec.None? {
        return -EINVAL, [];
      }
      sampleSize := spec.value.sampleSize;
      var all := OpenCalls(device, spec.value.format, rate, channels);
      var failure := FirstFailure(results, s => s >= 0);
      if failure.None? {
        handle := Some(pcm);
        return 0, all;
      }
      var i := failure.value;
      err := results[i];
      calls := all[..i + 1];
      // error: a handle exists once snd_pcm_open has succeeded
      if i > 0 {
        calls := calls + [PcmClose];
      }
      handle := None;
    }

    /** `alsa_object_close`. */
    method Close() returns (calls: seq<AlsaCall>)
      requires Valid()
      modifies this
      ensures Valid()
      ensures handle.None? && sampleSize == old(sampleSize)
      ensures calls == if old(handle).Some? then [PcmClose] else []
    {
      calls := [];
      if handle.Some? {
        calls := [PcmClose];
        handle := None;
      }
    }

    /** `alsa_object_drain`: `drainResult` is what `snd_pcm_drain` returns. */
    method Drain(drainResult: int) returns (err: int, calls: seq<AlsaCall>)
      ensures handle.None? ==> err == 0 && calls == []
      ensures handle.Some? ==> err == drainResult && calls == [PcmDrain]
    {
      if handle.Some? {
        return drainResult, [PcmDrain];
      }
      return 0, [];
    }

    /** `alsa_object_flush`: `dropResult` is what `snd_pcm_drop` returns. */
    method Flush(dropResult: int) returns (err: int, calls: seq<AlsaCall>)
      ensures handle.None? ==> err == 0 && calls == []
      ensures handle.Some? ==> err == dropResult && calls == [PcmDrop]
    {
      if handle.Some? {
        return dropResult, [PcmDrop];
      }
      return 0, [];
    }

    /** `alsa_object_write` of `bytes` bytes.  `state` is what `snd_pcm_state`
        reports, `prepareResult` what the first `snd_pcm_prepare` returns,
        `writei` what `snd_pcm_writei` returns for a frame count (a
        `snd_pcm_sframes_t` stored in an `int`) and `recoverResult` what the
        re-prepare after an underrun returns. */
    method Write(bytes: nat, state: PcmState, prepareResult: int, writei: nat -> int, recoverResult: int)
      returns (err: int, calls: seq<AlsaCall>)
      requires Valid()
      ensures handle.None? ==> err == 0 && calls == []
      ensures handle.Some? && state !in {SND_PCM_STATE_PREPARED, SND_PCM_STATE_RUNNING} && prepareResult != 0 ==>
        err == prepareResult && calls == [PcmGetState, PcmPrepare]
      ensures handle.Some? && (state in {SND_PCM_STATE_PREPARED, SND_PCM_STATE_RUNNING} || prepareResult == 0) ==>
        var frames := FrameCountAsWritten(bytes, sampleSize);
        var written := AsInt(writei(frames));
        var prefix := [PcmGetState] + (if state in {SND_PCM_STATE_PREPARED, SND_PCM_STATE_RUNNING} then [] else [PcmPrepare]);
        if written == -EPIPE then
          err == WriteResult(recoverResult) && calls == prefix + [PcmWritei(frames), PcmPrepare]
        else
          err == WriteResult(written) && calls == prefix + [PcmWritei(frames)]
    {
      if handle.None? {
        return 0, [];
      }
      calls := [PcmGetState];
      if state != SND_PCM_STATE_PREPARED && state != SND_PCM_STATE_RUNNING {
        calls := calls + [PcmPrepare];
        if prepareResult != 0 {
          return prepareResult, calls;
        }
      }
      var frames := bytes / sampleSize;
      calls := calls + [PcmWritei(frames)];
      err := AsInt(writei(frames));
      if err == -EPIPE {
        calls := calls + [PcmPrepare];
        err := recoverResult;
      }
      err := if err >= 0 then 0 else err;
    }
  }

  /** On an object whose `open` succeeded, `write` returns 0 whenever the
      frames were accepted, and a failed `open` leaves no handle, so a later
      `write` makes no native call. */
  method OpenWriteScenario(results: seq<int>, data: nat, writei: nat -> int)
    returns (openErr: int, writeErr: int, writeCalls: seq<AlsaCall>)
    requires |results| == 8
    ensures openErr != 0 ==> openErr < 0 && writeErr == 0 && writeCalls == []
    ensures openErr == 0 && 0 <= writei(data / 2) < 0x8000_0000 ==>
      writeErr == 0 && writeCalls == [PcmGetState, PcmWritei(data / 2)]
  {
    var o := new AlsaObject(None);
    var calls;
    openErr, calls := o.Open(S16LE, 22050, 1, 7, results);
    writeErr, writeCalls := o.Write(data, SND_PCM_STATE_PREPARED, 0, writei, 0);
  }
}
