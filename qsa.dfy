/** The QSA (QNX Sound Architecture) backend: the three-entry format table,
    the handle guard and error path of `open`, `close`, and the short-write
    recovery of `write`.  The `snd_pcm_*` calls are parameters. */
module Qsa {
  import opened Native
  import opened Formats

  /** The `SND_PCM_SFMT_*` values the table uses. */
  datatype SampleFormat = SND_PCM_SFMT_U8 | SND_PCM_SFMT_S8 | SND_PCM_SFMT_S16_LE

  datatype QsaSpec = QsaSpec(format: SampleFormat, sampleSize: nat)

  /** The `FORMAT` table of `qsa_object_open`; None is the `default` case. */
  function QsaSpecOf(f: Format): (r: Option<QsaSpec>)
    ensures r.Some? <==> f in {U8, S8, S16LE}
    ensures r.Some? ==> r.value.sampleSize == (if f == S16LE then 2 else 1)
  {
    match f
    case U8 => Some(QsaSpec(SND_PCM_SFMT_U8, 1))
    case S8 => Some(QsaSpec(SND_PCM_SFMT_S8, 1))
    case S16LE => Some(QsaSpec(SND_PCM_SFMT_S16_LE, 2))
    case _ => None
  }

  function FormatOfQsa(p: SampleFormat): Format
  {
    match p
    case SND_PCM_SFMT_U8 => U8
    case SND_PCM_SFMT_S8 => S8
    case SND_PCM_SFMT_S16_LE => S16LE
  }

  lemma TableRoundTrip(f: Format, p: SampleFormat)
    ensures QsaSpecOf(f).Some? ==> FormatOfQsa(QsaSpecOf(f).value.format) == f
    ensures QsaSpecOf(FormatOfQsa(p)).Some? && QsaSpecOf(FormatOfQsa(p)).value.format == p
  {
  }

  /** `snd_pcm_channel_status_t.status`, as far as `write` distinguishes it. */
  datatype ChannelStatus = SND_PCM_STATUS_READY | SND_PCM_STATUS_UNDERRUN | OtherStatus

  /** The native calls the backend makes. */
  datatype QsaCall =
    | OpenName(device: string)
    | OpenPreferred
    | Info
    | PluginInfo
    | PluginParams(rate: Uint32, voices: Uint8, format: SampleFormat)
    | PluginPrepare
    | PcmClose
    | PluginWrite(bytes: nat)
    | PluginStatus

  /** The five calls of a successful `open`, in order. */
  function OpenCalls(device: CStr, format: SampleFormat, rate: Uint32, channels: Uint8): (r: seq<QsaCall>)
    ensures |r| == 5 && r[3] == PluginParams(rate, channels, format) && r[4] == PluginPrepare
    ensures r[0] == if device.Some? then OpenName(device.value) else OpenPreferred
  {
    [if device.Some? then OpenName(device.value) else OpenPreferred,
     Info, PluginInfo, PluginParams(rate, channels, format), PluginPrepare]
  }

  class QsaObject {
    /** The `snd_pcm_t *` (None for NULL). */
    var handle: Option<nat>
    var sampleSize: nat
    const device: CStr

    /** `create_qsa_object`. */
    constructor (device: CStr)
      ensures handle.None? && sampleSize == 0 && this.device == device
    {
      handle := None;
      sampleSize := 0;
      this.device := device;
    }

    /** `qsa_object_open`.  `pcm` is the handle the open call would produce
        and `results` the statuses of the five calls of `OpenCalls`. */
    method Open(format: Format, rate: Uint32, channels: Uint8, pcm: nat, results: seq<int>)
      returns (err: int, calls: seq<QsaCall>)
      requires |results| == 5
      modifies this
      ensures old(handle).Some? ==>
        err == -EEXIST && calls == [] && handle == old(handle) && sampleSize == old(sampleSize)
      ensures old(handle).None? && QsaSpecOf(format).None? ==>
        err == -EINVAL && calls == [] && handle.None? && sampleSize == old(sampleSize)
      ensures old(handle).None? && QsaSpecOf(format).Some? ==>
        var spec := QsaSpecOf(format).value;
        && sampleSize == spec.sampleSize
        && match FirstFailure(results, s => s >= 0)
           case Some(i) =>
             && err == results[i] && err < 0 && handle.None?
             && calls == OpenCalls(device, spec.format, rate, channels)[..i + 1] + (if i == 0 then [] else [PcmClose])
           case None =>
             err == 0 && handle == Some(pcm) && calls == OpenCalls(device, spec.format, rate, channels)
    {
      if handle.Some? {
        return -EEXIST, [];
      }
      var spec := QsaSpecOf(format);
      if spec.None? {
        return -EINVAL, [];
      }
      sampleSize := spec.value.sampleSize;
      var all := OpenCalls(device, spec.value.format, rate, channels);
      var failure := FirstFailure(results, s => s >= 0);
      if failure.None? {
        handle := Some(pcm);
        return 0, all;
      }
      var i := failure.value;
      err := results[i];
      calls := all[..i + 1];
      if i > 0 {
        calls := calls + [PcmClose];
      }
      handle := None;
    }

    /** `qsa_object_close`. */
    method Close() returns (calls: seq<QsaCall>)
      modifies this
      ensures handle.None? && sampleSize == old(sampleSize)
      ensures calls == if old(handle).Some? then [PcmClose] else []
    {
      calls := [];
      if handle.Some? {
        calls := [PcmClose];
        handle := None;
      }
    }
  }

  /** `qsa_object_write` of `bytes` bytes.  `firstWrite` and `retryWrite` are
      what the two `snd_pcm_plugin_write` calls return (an `ssize_t`, stored in
      a `size_t` the first time and returned as an `int`), `statusResult` and
      `status` what `snd_pcm_plugin_status` reports, and `prepareResult` what
      the re-prepare returns. */
  method Write(bytes: Size, firstWrite: int, statusResult: int, status: ChannelStatus,
               prepareResult: int, retryWrite: int)
    returns (err: int, calls: seq<QsaCall>)
    ensures var written := AsSize(firstWrite);
      && (written >= bytes ==> err == AsInt(written) && calls == [PluginWrite(bytes)])
      && (written < bytes && statusResult < 0 ==>
            err == statusResult && calls == [PluginWrite(bytes), PluginStatus])
      && (written < bytes && statusResult >= 0 && status == OtherStatus ==>
            err == statusResult && calls == [PluginWrite(bytes), PluginStatus])
      && (written < bytes && statusResult >= 0 && status != OtherStatus ==>
            if prepareResult == 0 && written == 0 then
              err == AsInt(retryWrite) && calls == [PluginWrite(bytes), PluginStatus, PluginPrepare, PluginWrite(bytes)]
            else
              err == prepareResult && calls == [PluginWrite(bytes), PluginStatus, PluginPrepare])
  {
    calls := [PluginWrite(bytes)];
    var written := AsSize(firstWrite);
    if written < bytes {
      calls := calls + [PluginStatus];
      err := statusResult;
      if err < 0 {
        return;
      }
      if status == SND_PCM_STATUS_READY || status == SND_PCM_STATUS_UNDERRUN {
        calls := calls + [PluginPrepare];
        err := prepareResult;
        if err == 0 && written == 0 {
          calls := calls + [PluginWrite(bytes)];
          return AsInt(retryWrite), calls;
        }
      }
      return;
    }
    err := AsInt(written);
  }

  /** The outcomes of `Write` for 1000 bytes: a full write reports the byte
      count; a failed write call (-1) converts to the largest `size_t`, so it
      counts as full and is reported as -1; a short write with a healthy status
      reports 0; and a write of nothing after an underrun is retried once. */
  method WriteExamples() returns (full: int, failed: int, shortHealthy: int, retried: int)
    ensures full == 1000 && failed == -1 && shortHealthy == 0 && retried == 1000
  {
    var calls;
    full, calls := Write(1000, 1000, 0, OtherStatus, 0, 0);
    failed, calls := Write(1000, -1, 0, OtherStatus, 0, 0);
    shortHealthy, calls := Write(1000, 400, 0, OtherStatus, 0, 0);
    retried, calls := Write(1000, 0, 0, SND_PCM_STATUS_UNDERRUN, 0, 1000);
  }
}
