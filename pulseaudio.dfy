/** The PulseAudio backend: the format switch of `open` (with the four S24
    formats present only when the library defines `PA_SAMPLE_S24LE`), the
    buffer attributes it asks for, the stream guard, and the availability
    probe of `create`.  `pa_simple_new` is a parameter: the stream (None for
    NULL) and the error code it yields for a request. */
module PulseAudio {
  import opened Native
  import opened Formats

  /** The reported error codes (`pa_error_code_t`). */
  const PA_ERR_INVALID: int := 3
  const PA_ERR_EXIST: int := 4

  /** Cancellation latency aimed for, in milliseconds (`LATENCY`). */
  const Latency: nat := 10

  /** The `pa_sample_format_t` values the switch uses. */
  datatype SampleFormat =
    | PA_SAMPLE_U8 | PA_SAMPLE_ALAW | PA_SAMPLE_ULAW
    | PA_SAMPLE_S16LE | PA_SAMPLE_S16BE
    | PA_SAMPLE_S24LE | PA_SAMPLE_S24BE | PA_SAMPLE_S24_32LE | PA_SAMPLE_S24_32BE
    | PA_SAMPLE_S32LE | PA_SAMPLE_S32BE
    | PA_SAMPLE_FLOAT32LE | PA_SAMPLE_FLOAT32BE

  /** The formats the switch maps on every build. */
  const AlwaysMapped: set<Format> := {ALAW, ULAW, U8, S16LE, S16BE, S32LE, S32BE, FLOAT32LE, FLOAT32BE}
  /** The formats mapped only when `PA_SAMPLE_S24LE` is defined. */
  const S24Mapped: set<Format> := {S24LE, S24BE, S24_32LE, S24_32BE}

  /** The format switch of `pulseaudio_object_open`; `hasS24` says whether the
      build defines `PA_SAMPLE_S24LE`.  None is the `default` case. */
  function SampleFormatOf(f: Format, hasS24: bool): (r: Option<SampleFormat>)
    ensures r.Some? <==> f in AlwaysMapped || (hasS24 && f in S24Mapped)
  {
    match f
    case ALAW => Some(PA_SAMPLE_ALAW)
    case ULAW => Some(PA_SAMPLE_ULAW)
    case U8 => Some(PA_SAMPLE_U8)
    case S16LE => Some(PA_SAMPLE_S16LE)
    case S16BE => Some(PA_SAMPLE_S16BE)
    case S24LE => if hasS24 then Some(PA_SAMPLE_S24LE) else None
    case S24BE => if hasS24 then Some(PA_SAMPLE_S24BE) else None
    case S24_32LE => if hasS24 then Some(PA_SAMPLE_S24_32LE) else None
    case S24_32BE => if hasS24 then Some(PA_SAMPLE_S24_32BE) else None
    case S32LE => Some(PA_SAMPLE_S32LE)
    case S32BE => Some(PA_SAMPLE_S32BE)
    case FLOAT32LE => Some(PA_SAMPLE_FLOAT32LE)
    case FLOAT32BE => Some(PA_SAMPLE_FLOAT32BE)
    case _ => None
  }

  /** The library format each native format serves. */
  function FormatOfSample(p: SampleFormat): Format
  {
    match p
    case PA_SAMPLE_U8 => U8
    case PA_SAMPLE_ALAW => ALAW
    case PA_SAMPLE_ULAW => ULAW
    case PA_SAMPLE_S16LE => S16LE
    case PA_SAMPLE_S16BE => S16BE
    case PA_SAMPLE_S24LE => S24LE
    case PA_SAMPLE_S24BE => S24BE
    case PA_SAMPLE_S24_32LE => S24_32LE
    case PA_SAMPLE_S24_32BE => S24_32BE
    case PA_SAMPLE_S32LE => S32LE
    case PA_SAMPLE_S32BE => S32BE
    case PA_SAMPLE_FLOAT32LE => FLOAT32LE
    case PA_SAMPLE_FLOAT32BE => FLOAT32BE
  }

  /** The switch is one-to-one, and the S24 build loses none of the others. */
  lemma SwitchRoundTrip(f: Format, p: SampleFormat, hasS24: bool)
    ensures SampleFormatOf(f, hasS24).Some? ==> FormatOfSample(SampleFormatOf(f, hasS24).value) == f
    ensures SampleFormatOf(FormatOfSample(p), true) == Some(p)
    ensures SampleFormatOf(f, false).Some? ==> SampleFormatOf(f, true) == SampleFormatOf(f, false)
  {
  }

  /** `pa_sample_size`: bytes per sample. */
  function SampleSize(p: SampleFormat): (r: nat)
    ensures 1 <= r <= 4
  {
    match p
    case PA_SAMPLE_U8 | PA_SAMPLE_ALAW | PA_SAMPLE_ULAW => 1
    case PA_SAMPLE_S16LE | PA_SAMPLE_S16BE => 2
    case PA_SAMPLE_S24LE | PA_SAMPLE_S24BE => 3
    case _ => 4
  }

  /** `pa_sample_spec`.  The format is None until an `open` has set it. */
  datatype SampleSpec = SampleSpec(format: Option<SampleFormat>, rate: Uint32, channels: Uint8)

  /** `pa_bytes_per_second`. */
  function BytesPerSecond(spec: SampleSpec): (r: nat)
    requires spec.format.Some?
  {
    spec.rate * spec.channels * SampleSize(spec.format.value)
  }

  /** `pa_buffer_attr`. */
  datatype BufferAttr = BufferAttr(maxlength: Uint32, tlength: Uint32, prebuf: Uint32, minreq: Uint32, fragsize: Uint32)

  const Default: Uint32 := 0xFFFF_FFFF

  /** The target length `open` asks for: the bytes played in `Latency`
      milliseconds, rounded down, stored in a `uint32_t`. */
  function TargetLength(bytesPerSecond: nat): (r: Uint32)
    ensures bytesPerSecond < 100 * 0x1_0000_0000 ==>
      r * 1000 <= bytesPerSecond * Latency < (r + 1) * 1000
  {
    (bytesPerSecond * Latency / 1000) % 0x1_0000_0000
  }

  /** Only the target length is chosen; the other four fields are `(uint32_t) -1`,
      which lets the server pick them. */
  function OpenAttr(spec: SampleSpec): (r: BufferAttr)
    requires spec.format.Some?
    ensures r.tlength == TargetLength(BytesPerSecond(spec))
    ensures r.maxlength == r.prebuf == r.minreq == r.fragsize == Default
  {
    BufferAttr(Default, TargetLength(BytesPerSecond(spec)), Default, Default, Default)
  }

  /** 10 ms of 16-bit mono audio at 22050 Hz is 441 bytes; of 16-bit stereo at
      44100 Hz, 1764 bytes. */
  lemma TargetLengthExamples()
    ensures OpenAttr(SampleSpec(Some(PA_SAMPLE_S16LE), 22050, 1)).tlength == 441
    ensures OpenAttr(SampleSpec(Some(PA_SAMPLE_S16LE), 44100, 2)).tlength == 1764
  {
  }

  /** The arguments of a `pa_simple_new` call for playback. */
  datatype StreamRequest = StreamRequest(
    applicationName: CStr, device: CStr, description: CStr, spec: SampleSpec, attr: Option<BufferAttr>)

  /** What `pa_simple_new` yields for a request: the stream and the error. */
  type SimpleNew = StreamRequest -> (Option<nat>, int)

  /** The fixed configuration of the availability probe. */
  const ProbeSpec: SampleSpec := SampleSpec(Some(PA_SAMPLE_S16LE), 44100, 1)

  /** `pulseaudio_is_available`: a default-attribute probe stream can be
      created (it is freed again straight away). */
  function IsAvailable(device: CStr, applicationName: CStr, description: CStr, simpleNew: SimpleNew): (r: bool)
  {
    simpleNew(StreamRequest(applicationName, device, description, ProbeSpec, None)).0.Some?
  }

  class PulseAudioObject {
    var ss: SampleSpec
    /** The `pa_simple *` (None for NULL). */
    var s: Option<nat>
    const device: CStr
    const applicationName: CStr
    const description: CStr

    constructor (device: CStr, applicationName: CStr, description: CStr)
      ensures s.None? && ss.format.None?
      ensures this.device == device && this.applicationName == applicationName && this.description == description
    {
      ss := SampleSpec(None, 0, 0);
      s := None;
      this.device, this.applicationName, this.description := device, applicationName, description;
    }

    /** `pulseaudio_object_open`: the error code, and the stream request it
        made, if any. */
    method Open(format: Format, rate: Uint32, channels: Uint8, hasS24: bool, simpleNew: SimpleNew)
      returns (err: int, request: Option<StreamRequest>)
      modifies this
      ensures old(s).Some? ==> err == PA_ERR_EXIST && request.None? && s == old(s) && ss == old(ss)
      // the rate and channel count are stored before the format is checked
      ensures old(s).None? ==> ss.rate == rate && ss.channels == channels
      ensures old(s).None? && SampleFormatOf(format, hasS24).None? ==>
        err == PA_ERR_INVALID && request.None? && s.None? && ss.format == old(ss).format
      ensures old(s).None? && SampleFormatOf(format, hasS24).Some? ==>
        && ss.format == SampleFormatOf(format, hasS24)
        && request == Some(StreamRequest(applicationName, device, description, ss, Some(OpenAttr(ss))))
        && (s, err) == simpleNew(request.value)
    {
      if s.Some? {
        return PA_ERR_EXIST, None;
      }
      ss := ss.(rate := rate, channels := channels);
      var sampleFormat := SampleFormatOf(format, hasS24);
      if sampleFormat.None? {
        return PA_ERR_INVALID, None;
      }
      ss := ss.(format := sampleFormat);
      var attr := BufferAttr(Default, TargetLength(BytesPerSecond(ss)), Default, Default, Default);
      var req := StreamRequest(applicationName, device, description, ss, Some(attr));
      var (stream, error) := simpleNew(req);
      s := stream;
      return error, Some(req);
    }

    /** `pulseaudio_object_close`: whether `pa_simple_free` was called. */
    method Close() returns (freed: bool)
      modifies this
      ensures s.None? && ss == old(ss)
      ensures freed <==> old(s).Some?
    {
      freed := s.Some?;
      s := None;
    }

    /** `pulseaudio_object_drain`: `error` is what `pa_simple_drain` reports. */
    method Drain(error: int) returns (err: int)
      ensures err == if s.Some? then error else 0
    {
      err := if s.Some? then error else 0;
    }

    /** `pulseaudio_object_flush`: `error` is what `pa_simple_flush` reports. */
    method Flush(error: int) returns (err: int)
      ensures err == if s.Some? then error else 0
    {
      err := if s.Some? then error else 0;
    }

    /** `pulseaudio_object_write`: `error` is what `pa_simple_write` reports. */
    method Write(data: seq<byte>, error: int) returns (err: int)
      ensures err == if s.Some? then error else 0
    {
      err := if s.Some? then error else 0;
    }
  }

  /** `create_pulseaudio_object`: no object unless the probe succeeds. */
  method Create(device: CStr, applicationName: CStr, description: CStr, simpleNew: SimpleNew)
    returns (o: Option<PulseAudioObject>)
    ensures o.None? <==> !IsAvailable(device, applicationName, description, simpleNew)
    ensures o.Some? ==>
      && fresh(o.value) && o.value.s.None? && o.value.device == device
      && o.value.applicationName == applicationName && o.value.description == description
  {
    if !IsAvailable(device, applicationName, description, simpleNew) {
      return None;
    }
    var self := new PulseAudioObject(device, applicationName, description);
    return Some(self);
  }

  /** An `open` that rejects its format has still overwritten the stored
      rate and channel count. */
  method RejectedFormatKeepsRate(simpleNew: SimpleNew) returns (err: int, rate: Uint32, channels: Uint8)
    ensures err == PA_ERR_INVALID && rate == 8000 && channels == 2
  {
    var o := new PulseAudioObject(None, None, None);
    var request;
    err, request := o.Open(AC3, 8000, 2, true, simpleNew);
    rate, channels := o.ss.rate, o.ss.channels;
  }
}
