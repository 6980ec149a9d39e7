/** The OSS backend: the format switch and the descriptor guard and error
    path of `open`, `close` as written (whose test is inverted) beside the
    evidently intended one, and the errno relay of `write`, `drain` and
    `flush`.  The system calls are parameters: what each returns and the
    `errno` it leaves. */
module Oss {
  import opened Native
  import opened Formats

  const DefaultDevice: string := "/dev/dsp"

  /** The `AFMT_*` values the switch uses. */
  datatype OssFormat =
    | AFMT_A_LAW | AFMT_MU_LAW | AFMT_S8 | AFMT_U8
    | AFMT_S16_LE | AFMT_S16_BE | AFMT_U16_LE | AFMT_U16_BE
    | AFMT_IMA_ADPCM | AFMT_MPEG | AFMT_AC3

  /** The eleven formats the switch accepts. */
  const Accepted: set<Format> := {ALAW, ULAW, S8, U8, S16LE, S16BE, U16LE, U16BE, ADPCM, MPEG, AC3}

  /** The format switch of `oss_object_open`; None is the `default` case. */
  function OssFormatOf(f: Format): (r: Option<OssFormat>)
    ensures r.Some? <==> f in Accepted
  {
    match f
    case ALAW => Some(AFMT_A_LAW)
    case ULAW => Some(AFMT_MU_LAW)
    case S8 => Some(AFMT_S8)
    case U8 => Some(AFMT_U8)
    case S16LE => Some(AFMT_S16_LE)
    case S16BE => Some(AFMT_S16_BE)
    case U16LE => Some(AFMT_U16_LE)
    case U16BE => Some(AFMT_U16_BE)
    case ADPCM => Some(AFMT_IMA_ADPCM)
    case MPEG => Some(AFMT_MPEG)
    case AC3 => Some(AFMT_AC3)
    case _ => None
  }

  /** The library format each `AFMT_*` value serves. */
  function FormatOfOss(p: OssFormat): Format
  {
    match p
    case AFMT_A_LAW => ALAW
    case AFMT_MU_LAW => ULAW
    case AFMT_S8 => S8
    case AFMT_U8 => U8
    case AFMT_S16_LE => S16LE
    case AFMT_S16_BE => S16BE
    case AFMT_U16_LE => U16LE
    case AFMT_U16_BE => U16BE
    case AFMT_IMA_ADPCM => ADPCM
    case AFMT_MPEG => MPEG
    case AFMT_AC3 => AC3
  }

  /** The switch is one-to-one onto the `AFMT_*` values, and accepts exactly
      eleven formats. */
  lemma SwitchRoundTrip(f: Format, p: OssFormat)
    ensures OssFormatOf(f).Some? ==> FormatOfOss(OssFormatOf(f).value) == f
    ensures OssFormatOf(FormatOfOss(p)) == Some(p)
    ensures |Accepted| == 11
  {
  }

  /** The system calls the backend makes. */
  datatype OssCall =
    | OpenDevice(path: string)
    | SetFormat(format: OssFormat)
    | SetSpeed(rate: Uint32)
    | SetChannels(channels: Uint8)
    | CloseFd(fd: int)
    | Sync(fd: int)
    | Reset(fd: int)
    | WriteFd(fd: int, bytes: nat)

  class OssObject {
    /** The file descriptor; -1 when there is none. */
    var fd: int
    const device: CStr

    ghost predicate Valid()
      reads this
    {
      fd >= -1
    }

    /** `create_oss_object`. */
    constructor (device: CStr)
      ensures Valid() && fd == -1 && this.device == device
    {
      fd := -1;
      this.device := device;
    }

    /** `oss_object_open`.  `descriptor` is what `open` returns (a descriptor or
        -1), `ioctls` what the three `ioctl` calls return, and `errnos` the
        `errno` after `open` and after each `ioctl`. */
    method Open(format: Format, rate: Uint32, channels: Uint8, descriptor: int, ioctls: seq<int>, errnos: seq<int>)
      returns (err: int, calls: seq<OssCall>)
      requires Valid()
      requires descriptor >= -1 && |ioctls| == 3 && |errnos| == 4
      modifies this
      ensures Valid()
      // the only positive "already open" code of the library
      ensures old(fd) != -1 ==> err == EEXIST && calls == [] && fd == old(fd)
      ensures old(fd) == -1 && OssFormatOf(format).None? ==> err == -EINVAL && calls == [] && fd == -1
      ensures old(fd) == -1 && OssFormatOf(format).Some? ==>
        var path := if device.Some? then device.value else DefaultDevice;
        var all := [OpenDevice(path), SetFormat(OssFormatOf(format).value), SetSpeed(rate), SetChannels(channels)];
        if descriptor == -1 then
          err == errnos[0] && fd == -1 && calls == all[..1]
        else
          match FirstFailure(ioctls, r => r != -1)
          case Some(i) => err == errnos[i + 1] && fd == -1 && calls == all[..i + 2] + [CloseFd(descriptor)]
          case None => err == 0 && fd == descriptor && calls == all
    {
      if fd != -1 {
        return EEXIST, [];
      }
      var ossFormat := OssFormatOf(format);
      if ossFormat.None? {
        return -EINVAL, [];
      }
      var path := if device.Some? then device.value else DefaultDevice;
      var all := [OpenDevice(path), SetFormat(ossFormat.value), SetSpeed(rate), SetChannels(channels)];
      fd := descriptor;
      if fd == -1 {
        return errnos[0], all[..1];
      }
      var failure := FirstFailure(ioctls, r => r != -1);
      if failure.None? {
        return 0, all;
      }
      var i := failure.value;
      err := errnos[i + 1];
      calls := all[..i + 2] + [CloseFd(fd)];
      fd := -1;
    }

    /** `oss_object_close` as written: it acts only when there is no
        descriptor, closing -1, and leaves an open descriptor alone. */
    method Close() returns (calls: seq<OssCall>)
      requires Valid()
      modifies this
      ensures Valid()
      ensures fd == old(fd)
      ensures calls == if old(fd) == -1 then [CloseFd(-1)] else []
    {
      calls := [];
      if fd == -1 {
        calls := [CloseFd(fd)];
        fd := -1;
      }
    }

    /** `close` as evidently intended: release the descriptor if there is one. */
    method CloseIntended() returns (calls: seq<OssCall>)
      requires Valid()
      modifies this
      ensures Valid()
      ensures fd == -1
      ensures calls == if old(fd) != -1 then [CloseFd(old(fd))] else []
    {
      calls := [];
      if fd != -1 {
        calls := [CloseFd(fd)];
        fd := -1;
      }
    }

    /** `oss_object_drain`: `result` and `errno` of the `SNDCTL_DSP_SYNC` ioctl,
        which is issued whether or not there is a descriptor. */
    method Drain(result: int, errno: int) returns (err: int, calls: seq<OssCall>)
      ensures calls == [Sync(fd)]
      ensures err == if result == -1 then errno else 0
    {
      err := if result == -1 then errno else 0;
      calls := [Sync(fd)];
    }

    /** `oss_object_flush`: as `drain`, with `SNDCTL_DSP_RESET`. */
    method Flush(result: int, errno: int) returns (err: int, calls: seq<OssCall>)
      ensures calls == [Reset(fd)]
      ensures err == if result == -1 then errno else 0
    {
      err := if result == -1 then errno else 0;
      calls := [Reset(fd)];
    }

    /** `oss_object_write`: `result` and `errno` of the `write` call.  A short
        write counts as success. */
    method Write(data: seq<byte>, result: int, errno: int) returns (err: int, calls: seq<OssCall>)
      ensures calls == [WriteFd(fd, |data|)]
      ensures err == if result == -1 then errno else 0
      ensures 0 <= result < |data| ==> err == 0
    {
      err := if result == -1 then errno else 0;
      calls := [WriteFd(fd, |data|)];
    }
  }

  /** As written, after a successful `open` and a `close`, the descriptor is
      still open, and opening again fails with `EEXIST`. */
  method ReopenAfterClose(descriptor: nat) returns (first: int, closeCalls: seq<OssCall>, second: int)
    ensures first == 0 && closeCalls == [] && second == EEXIST
  {
    var o := new OssObject(None);
    var calls;
    first, calls := o.Open(S16LE, 22050, 1, descriptor, [0, 0, 0], [0, 0, 0, 0]);
    closeCalls := o.Close();
    second, calls := o.Open(S16LE, 22050, 1, descriptor, [0, 0, 0], [0, 0, 0, 0]);
  }

  /** With the intended `close`, the same sequence closes the descriptor and
      the second `open` succeeds. */
  method ReopenAfterIntendedClose(descriptor: nat) returns (first: int, closeCalls: seq<OssCall>, second: int)
    ensures first == 0 && closeCalls == [CloseFd(descriptor)] && second == 0
  {
    var o := new OssObject(None);
    var calls;
    first, calls := o.Open(S16LE, 22050, 1, descriptor, [0, 0, 0], [0, 0, 0, 0]);
    closeCalls := o.CloseIntended();
    second, calls := o.Open(S16LE, 22050, 1, descriptor, [0, 0, 0], [0, 0, 0, 0]);
  }
}
