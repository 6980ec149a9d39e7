/** The sndio backend: the three format classifiers (bit width, signedness,
    byte order, each with the sentinel -1), the parameter request and
    "negotiated equals requested" check of `open`, `close` and `write`.  The
    `sio_*` calls are parameters. */
module Sndio {
  import opened Native
  import opened Formats

  /** `audio_format_get_bits`. */
  function GetBits(f: Format): (r: int)
    ensures r in {-1, 8, 16, 18, 20, 24, 32}
    ensures f in {S24_32LE, S24_32BE, U24_32LE, U24_32BE} ==> r == -1
    // defined exactly on the integer formats other than 24-in-32
    ensures r != -1 <==> f in SignedInteger + UnsignedInteger && f !in {S24_32LE, S24_32BE, U24_32LE, U24_32BE}
  {
    match f
    case S8 | U8 => 8
    case S16LE | S16BE | U16LE | U16BE => 16
    case S18LE | S18BE | U18LE | U18BE => 18
    case S20LE | S20BE | U20LE | U20BE => 20
    case S24LE | S24BE | U24LE | U24BE => 24
    case S24_32LE | S24_32BE | U24_32LE | U24_32BE => -1
    case S32LE | S32BE | U32LE | U32BE => 32
    case _ => -1
  }

  /** `audio_format_is_sig`. */
  function IsSig(f: Format): (r: int)
    ensures r in {-1, 0, 1}
    ensures r == 1 <==> f in SignedInteger
    ensures r == 0 <==> f in UnsignedInteger
  {
    match f
    case S8 | S16LE | S16BE | S18LE | S18BE | S20LE | S20BE | S24LE | S24BE
      | S24_32LE | S24_32BE | S32LE | S32BE => 1
    case U8 | U16LE | U16BE | U18LE | U18BE | U20LE | U20BE | U24LE | U24BE
      | U24_32LE | U24_32BE | U32LE | U32BE => 0
    case _ => -1
  }

  /** `audio_format_is_le`.  The 32-bit integer formats are missing from its
      switch, so they get the sentinel. */
  function IsLe(f: Format): (r: int)
    ensures r in {-1, 0, 1}
    ensures f in {S32LE, S32BE, U32LE, U32BE} ==> r == -1
    ensures r == 1 <==> f in LittleEndianInteger
    ensures r == 0 <==> f in SignedInteger + UnsignedInteger && f !in LittleEndianInteger
                         && f !in {S32LE, S32BE, U32LE, U32BE}
  {
    match f
    case S8 | U8 | S16BE | U16BE | S18BE | U18BE | S20BE | U20BE | S24BE | U24BE
      | S24_32BE | U24_32BE => 0
    case S16LE | U16LE | S18LE | U18LE | S20LE | U20LE | S24LE | U24LE
      | S24_32LE | U24_32LE => 1
    case _ => -1
  }

  /** The thirteen signed and thirteen unsigned integer formats. */
  const SignedInteger: set<Format> :=
    {S8, S16LE, S16BE, S18LE, S18BE, S20LE, S20BE, S24LE, S24BE, S24_32LE, S24_32BE, S32LE, S32BE}
  const UnsignedInteger: set<Format> :=
    {U8, U16LE, U16BE, U18LE, U18BE, U20LE, U20BE, U24LE, U24BE, U24_32LE, U24_32BE, U32LE, U32BE}
  /** The ten formats `IsLe` calls little-endian. */
  const LittleEndianInteger: set<Format> :=
    {S16LE, U16LE, S18LE, U18LE, S20LE, U20LE, S24LE, U24LE, S24_32LE, U24_32LE}

  /** The fields of `struct sio_par` that `open` sets or checks (all
      `unsigned int`). */
  datatype SioPar = SioPar(bits: Uint32, sig: Uint32, le: Uint32, rate: Uint32, rchan: Uint32, pchan: Uint32)

  /** `sio_initpar`: every field all ones, meaning "no preference". */
  const InitPar: SioPar := SioPar(0xFFFF_FFFF, 0xFFFF_FFFF, 0xFFFF_FFFF, 0xFFFF_FFFF, 0xFFFF_FFFF, 0xFFFF_FFFF)

  /** The parameters `open` asks for: each classifier's answer unless it is the
      sentinel, the rate, no recording channels and the playback channels. */
  function RequestedPar(f: Format, rate: Uint32, channels: Uint8): (r: SioPar)
    ensures GetBits(f) != -1 ==> r.bits == GetBits(f)
    ensures GetBits(f) == -1 ==> r.bits == InitPar.bits
    ensures IsSig(f) != -1 ==> r.sig == IsSig(f)
    ensures IsSig(f) == -1 ==> r.sig == InitPar.sig
    ensures IsLe(f) != -1 ==> r.le == IsLe(f)
    ensures IsLe(f) == -1 ==> r.le == InitPar.le
    ensures r.rate == rate && r.rchan == 0 && r.pchan == channels
  {
    var par := InitPar;
    var par := if GetBits(f) != -1 then par.(bits := GetBits(f)) else par;
    var par := if IsSig(f) != -1 then par.(sig := IsSig(f)) else par;
    var par := if IsLe(f) != -1 then par.(le := IsLe(f)) else par;
    par.(rate := rate, rchan := 0, pchan := channels)
  }

  /** The final check of `open`: the negotiated fields equal the classifiers'
      answers, compared as `unsigned int`. */
  predicate Agrees(par: SioPar, f: Format)
  {
    && par.bits == AsUnsigned(GetBits(f))
    && par.sig == AsUnsigned(IsSig(f))
    && par.le == AsUnsigned(IsLe(f))
  }

  /** A device that reports real values (never an all-ones field) cannot agree
      with a format that any classifier answers -1 for, so `open` fails for
      every such format; for the others, agreeing means reporting exactly the
      requested encoding. */
  lemma SentinelNeverAgrees(par: SioPar, f: Format)
    requires par.bits < 0xFFFF_FFFF && par.sig < 0xFFFF_FFFF && par.le < 0xFFFF_FFFF
    ensures (GetBits(f) == -1 || IsSig(f) == -1 || IsLe(f) == -1) ==> !Agrees(par, f)
    ensures (GetBits(f) != -1 && IsSig(f) != -1 && IsLe(f) != -1) ==>
      (Agrees(par, f) <==> par.bits == GetBits(f) && par.sig == IsSig(f) && par.le == IsLe(f))
  {
  }

  /** The `sio_*` calls the backend makes. */
  datatype SioCall = SioOpen(name: CStr) | SioSetPar(par: SioPar) | SioGetPar | SioClose | SioWrite(bytes: nat)

  class SndioObject {
    /** The `struct sio_hdl *` (None for NULL). */
    var hdl: Option<nat>
    const applicationName: CStr
    const description: CStr

    /** `create_sndio_object`: the device argument is not kept. */
    constructor (applicationName: CStr, description: CStr)
      ensures hdl.None? && this.applicationName == applicationName && this.description == description
    {
      hdl := None;
      this.applicationName, this.description := applicationName, description;
    }

    /** `sndio_object_open`.  `handle` is what `sio_open` returns, `setparOk`
        and `getparOk` whether those calls succeed, and `negotiated` the
        parameters `sio_getpar` reports.  The application name is passed to
        `sio_open` as the device name. */
    method Open(format: Format, rate: Uint32, channels: Uint8, handle: Option<nat>,
                setparOk: bool, getparOk: bool, negotiated: SioPar)
      returns (err: int, calls: seq<SioCall>)
      modifies this
      ensures old(hdl).Some? ==> err == -1 && calls == [] && hdl == old(hdl)
      ensures old(hdl).None? ==> hdl == handle
      ensures old(hdl).None? ==>
        var all := [SioOpen(applicationName), SioSetPar(RequestedPar(format, rate, channels)), SioGetPar];
        calls == all[..(if handle.None? then 1 else if !setparOk then 2 else 3)]
      // success exactly when every call succeeds and the device agrees; a
      // failure after sio_open keeps the handle
      ensures err == 0 <==>
        old(hdl).None? && handle.Some? && setparOk && getparOk && Agrees(negotiated, format)
      ensures err != 0 ==> err == -1
    {
      if hdl.Some? {
        return -1, [];
      }
      hdl := handle;
      calls := [SioOpen(applicationName)];
      if hdl.None? {
        return -1, calls;
      }
      var par := RequestedPar(format, rate, channels);
      calls := calls + [SioSetPar(par)];
      if !setparOk {
        return -1, calls;
      }
      calls := calls + [SioGetPar];
      if !getparOk {
        return -1, calls;
      }
      par := negotiated;
      if par.bits != AsUnsigned(GetBits(format)) {
        return -1, calls;
      }
      if par.sig != AsUnsigned(IsSig(format)) {
        return -1, calls;
      }
      if par.le != AsUnsigned(IsLe(format)) {
        return -1, calls;
      }
      err := 0;
    }

    /** `sndio_object_close`. */
    method Close() returns (calls: seq<SioCall>)
      modifies this
      ensures hdl.None?
      ensures calls == if old(hdl).Some? then [SioClose] else []
    {
      calls := [];
      if hdl.Some? {
        calls := [SioClose];
        hdl := None;
      }
    }

    /** `sndio_object_write`: `written` is what `sio_write` returns.  The
        result is the C truth value of "everything was written". */
    method Write(data: seq<byte>, written: nat) returns (r: int, calls: seq<SioCall>)
      ensures hdl.None? ==> r == 0 && calls == []
      ensures hdl.Some? ==> calls == [SioWrite(|data|)] && (r == 1 <==> written == |data|)
      ensures r in {0, 1}
    {
      if hdl.None? {
        return 0, [];
      }
      r := if written == |data| then 1 else 0;
      calls := [SioWrite(|data|)];
    }
  }

  /** FLOAT32LE has no bit width, signedness or byte order for sndio, so its
      `open` fails however the device answers, and keeps the handle. */
  method FloatNeverOpens(handle: nat, negotiated: SioPar) returns (err: int, kept: bool)
    requires negotiated.bits < 0xFFFF_FFFF
    ensures err == -1 && kept
  {
    var o := new SndioObject(None, None);
    var calls;
    err, calls := o.Open(FLOAT32LE, 48000, 2, Some(handle), true, true, negotiated);
    kept := o.hdl == Some(handle);
  }
}
