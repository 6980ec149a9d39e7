/** The Windows helpers: the format table of `CreateWaveFormat`, the
    `WAVEFORMATEX` arithmetic of `CreateWaveFormatEx`, and the loop of
    `windows_hresult_strerror` that trims line ends off a system message,
    both as written (where operator precedence lets it read before the
    message) and as evidently intended. */
module Windows {
  import opened Native
  import opened Formats

  /** HRESULTs, as the signed 32-bit values they are. */
  const S_OK: int := 0
  const E_INVALIDARG: int := 0x8007_0057 - 0x1_0000_0000
  const E_OUTOFMEMORY: int := 0x8007_000E - 0x1_0000_0000

  /** The `WAVE_FORMAT_*` tags the table uses. */
  datatype WaveFormatTag = WAVE_FORMAT_PCM | WAVE_FORMAT_IEEE_FLOAT | WAVE_FORMAT_ALAW | WAVE_FORMAT_MULAW

  datatype WaveSpec = WaveSpec(tag: WaveFormatTag, bits: nat)

  /** The seven formats `CreateWaveFormat` accepts. */
  const Accepted: set<Format> := {ALAW, ULAW, S8, S16LE, S32LE, FLOAT32LE, FLOAT64LE}

  /** The switch of `CreateWaveFormat`; None is the `default` case. */
  function WaveSpecOf(f: Format): (r: Option<WaveSpec>)
    ensures r.Some? <==> f in Accepted
    ensures r.Some? ==> r.value.bits in {8, 16, 32, 64}
  {
    match f
    case ALAW => Some(WaveSpec(WAVE_FORMAT_ALAW, 8))
    case ULAW => Some(WaveSpec(WAVE_FORMAT_MULAW, 8))
    case S8 => Some(WaveSpec(WAVE_FORMAT_PCM, 8))
    case S16LE => Some(WaveSpec(WAVE_FORMAT_PCM, 16))
    case S32LE => Some(WaveSpec(WAVE_FORMAT_PCM, 32))
    case FLOAT32LE => Some(WaveSpec(WAVE_FORMAT_IEEE_FLOAT, 32))
    case FLOAT64LE => Some(WaveSpec(WAVE_FORMAT_IEEE_FLOAT, 64))
    case _ => None
  }

  /** The format a (tag, bits) pair describes, if the table has it. */
  function FormatOfWave(spec: WaveSpec): (r: Option<Format>)
  {
    match spec
    case WaveSpec(WAVE_FORMAT_ALAW, 8) => Some(ALAW)
    case WaveSpec(WAVE_FORMAT_MULAW, 8) => Some(ULAW)
    case WaveSpec(WAVE_FORMAT_PCM, 8) => Some(S8)
    case WaveSpec(WAVE_FORMAT_PCM, 16) => Some(S16LE)
    case WaveSpec(WAVE_FORMAT_PCM, 32) => Some(S32LE)
    case WaveSpec(WAVE_FORMAT_IEEE_FLOAT, 32) => Some(FLOAT32LE)
    case WaveSpec(WAVE_FORMAT_IEEE_FLOAT, 64) => Some(FLOAT64LE)
    case _ => None
  }

  /** No two accepted formats share a (tag, bits) pair. */
  lemma TableRoundTrip(f: Format)
    ensures WaveSpecOf(f).Some? ==> FormatOfWave(WaveSpecOf(f).value) == Some(f)
  {
  }

  /** `WAVEFORMATEX`. */
  datatype WaveFormatEx = WaveFormatEx(
    formatTag: WaveFormatTag, channels: Uint16, samplesPerSec: Uint32, avgBytesPerSec: Uint32,
    blockAlign: Uint16, bitsPerSample: Uint16, cbSize: Uint16)

  /** What `*wfmt` holds afterwards: left alone, set to NULL by a failed
      allocation, or pointing at a filled-in structure. */
  datatype Out = Untouched | Null | Allocated(wfmt: WaveFormatEx)

  /** For the four widths `CreateWaveFormatEx` sees, the block size loses
      nothing to the division and fits a `WORD`. */
  lemma BlockAlignExact(channels: Uint8, bits: nat)
    requires bits in {8, 16, 32, 64}
    ensures ((channels * bits) / 8) * 8 == channels * bits
    ensures (channels * bits) / 8 <= 255 * 8
  {
    if bits == 8 {
    } else if bits == 16 {
    } else if bits == 32 {
    } else {
    }
  }

  /** `CreateWaveFormatEx`; `allocOk` says whether `CoTaskMemAlloc` succeeds. */
  function CreateWaveFormatEx(tag: WaveFormatTag, bits: nat, rate: Uint32, channels: Uint8, allocOk: bool): (r: (int, Out))
    requires bits in {8, 16, 32, 64}
    ensures !allocOk ==> r == (E_OUTOFMEMORY, Null)
    ensures allocOk ==> r.0 == S_OK && r.1.Allocated?
    ensures allocOk ==>
      var w := r.1.wfmt;
      // a block is one sample per channel, in whole bytes
      && w.blockAlign * 8 == channels * bits
      && w.avgBytesPerSec == (rate * w.blockAlign) % 0x1_0000_0000
      && w.formatTag == tag && w.channels == channels && w.samplesPerSec == rate
      && w.bitsPerSample == bits && w.cbSize == 0
  {
    if !allocOk then (E_OUTOFMEMORY, Null)
    else
      BlockAlignExact(channels, bits);
      var blockAlign := (channels * bits) / 8;
      (S_OK, Allocated(WaveFormatEx(tag, channels, rate, (rate * blockAlign) % 0x1_0000_0000, blockAlign, bits, 0)))
  }

  /** `CreateWaveFormat`; `hasOut` says whether `wfmt` is non-NULL. */
  function CreateWaveFormat(format: Format, rate: Uint32, channels: Uint8, hasOut: bool, allocOk: bool): (r: (int, Out))
    ensures !hasOut ==> r == (E_INVALIDARG, Untouched)
    ensures hasOut && format !in Accepted ==> r == (E_INVALIDARG, Untouched)
    ensures r.0 == S_OK <==> hasOut && format in Accepted && allocOk
    ensures r.0 == S_OK ==>
      var spec := WaveSpecOf(format).value;
      r.1.Allocated? && r.1.wfmt.formatTag == spec.tag && r.1.wfmt.bitsPerSample == spec.bits
    ensures hasOut && format in Accepted && !allocOk ==> r == (E_OUTOFMEMORY, Null)
  {
    if !hasOut then (E_INVALIDARG, Untouched)
    else match WaveSpecOf(format)
      case None => (E_INVALIDARG, Untouched)
      case Some(spec) => CreateWaveFormatEx(spec.tag, spec.bits, rate, channels, allocOk)
  }

  /** 16-bit stereo at 44100 Hz: four-byte blocks, 176400 bytes a second. */
  lemma CdQuality()
    ensures var (hr, out) := CreateWaveFormat(S16LE, 44100, 2, true, true);
      hr == S_OK && out == Allocated(WaveFormatEx(WAVE_FORMAT_PCM, 2, 44100, 176400, 4, 16, 0))
  {
  }

  predicate IsLineEnd(c: char)
  {
    c == '\n' || c == '\r'
  }

  /** What the trim loop does to a message, as written:
      `while (len > 1 && msg[len - 1] == '\n' || msg[len - 1] == '\r')`.
      The `len > 1` guards only the '\n' test, so a '\r' is removed whatever
      the length, and once the length reaches 0 the condition reads
      `msg[-1]`. */
  datatype TrimResult = Trimmed(msg: string) | ReadsBeforeStart

  function TrimAsWritten(s: string): (r: TrimResult)
    decreases |s|
  {
    if |s| == 0 then ReadsBeforeStart
    else if (|s| > 1 && s[|s| - 1] == '\n') || s[|s| - 1] == '\r' then TrimAsWritten(s[..|s| - 1])
    else Trimmed(s)
  }

  /** A trimmed result is a non-empty prefix of the message, only line ends
      were removed, and the loop stopped for the reason its condition gives. */
  lemma {:induction false} TrimAsWrittenRemovesLineEnds(s: string)
    requires TrimAsWritten(s).Trimmed?
    ensures var t := TrimAsWritten(s).msg;
      && 0 < |t| <= |s| && t == s[..|t|]
      && (forall i :: |t| <= i < |s| ==> IsLineEnd(s[i]))
      && t[|t| - 1] != '\r' && (|t| > 1 ==> t[|t| - 1] != '\n')
  {
    if |s| > 0 && ((|s| > 1 && s[|s| - 1] == '\n') || s[|s| - 1] == '\r') {
      var p := s[..|s| - 1];
      TrimAsWrittenRemovesLineEnds(p);
      var t := TrimAsWritten(p).msg;
      assert forall i :: |t| <= i < |p| ==> s[i] == p[i];
    }
  }

  /** The loop reads before the message exactly when the message is empty, or
      starts with '\r' and has nothing but line ends after it. */
  lemma {:induction false} ReadsBeforeStartExactly(s: string)
    ensures TrimAsWritten(s).ReadsBeforeStart? <==>
      (s == [] || (s[0] == '\r' && forall i :: 1 <= i < |s| ==> IsLineEnd(s[i])))
  {
    if |s| > 0 {
      var p := s[..|s| - 1];
      if (|s| > 1 && s[|s| - 1] == '\n') || s[|s| - 1] == '\r' {
        ReadsBeforeStartExactly(p);
        if |s| > 1 {
          assert p[0] == s[0];
          assert forall i :: 1 <= i < |p| ==> p[i] == s[i];
        }
      } else {
        assert !(s[0] == '\r' && forall i :: 1 <= i < |s| ==> IsLineEnd(s[i])) by {
          if |s| == 1 {
            assert s[0] != '\r';
          } else {
            assert !IsLineEnd(s[|s| - 1]);
          }
        }
      }
    }
  }

  /** A lone "\n" is kept, a lone "\r" makes the loop read `msg[-1]`, and an
      ordinary message loses its "\r\n". */
  lemma TrimExamples()
    ensures TrimAsWritten("\n") == Trimmed("\n")
    ensures TrimAsWritten("\r") == ReadsBeforeStart
    ensures TrimAsWritten("The operation completed.\r\n") == Trimmed("The operation completed.")
  {
    var m := "The operation completed.\r\n";
    assert m[..|m| - 1] == "The operation completed.\r";
    assert m[..|m| - 1][..|m| - 2] == "The operation completed.";
  }

  /** The trim loop as written, over the message buffer `msg` whose `strlen`
      is `length`.  It zeroes each removed character; `readsBeforeStart`
      reports that the next test of the condition would read `msg[-1]`. */
  method TrimLineEndsAsWritten(msg: array<char>, length: nat) returns (len: nat, readsBeforeStart: bool)
    requires length <= msg.Length
    modifies msg
    ensures len <= length
    ensures readsBeforeStart <==> TrimAsWritten(old(msg[..length])).ReadsBeforeStart?
    ensures !readsBeforeStart ==> msg[..len] == TrimAsWritten(old(msg[..length])).msg
    ensures readsBeforeStart ==> len == 0
    ensures forall i :: len <= i < length ==> msg[i] == '\0'
    ensures forall i :: length <= i < msg.Length ==> msg[i] == old(msg[i])
  {
    ghost var s := msg[..length];
    len := length;
    while len > 0 && ((len > 1 && msg[len - 1] == '\n') || msg[len - 1] == '\r')
      invariant len <= length
      invariant msg[..len] == s[..len]
      invariant TrimAsWritten(s[..len]) == TrimAsWritten(s)
      invariant forall i :: len <= i < length ==> msg[i] == '\0'
      invariant forall i :: length <= i < msg.Length ==> msg[i] == old(msg[i])
      decreases len
    {
      assert s[..len][..len - 1] == s[..len - 1];
      len := len - 1;
      msg[len] := '\0';
    }
    readsBeforeStart := len == 0;
  }

  /** The trim as evidently intended: remove every trailing line end, never
      looking before the message. */
  function TrimIntended(s: string): (r: string)
    decreases |s|
  {
    if |s| > 0 && IsLineEnd(s[|s| - 1]) then TrimIntended(s[..|s| - 1]) else s
  }

  /** The intended trim returns the longest prefix that does not end in a
      line end, having removed only line ends. */
  lemma {:induction false} TrimIntendedRemovesLineEnds(s: string)
    ensures var t := TrimIntended(s);
      && |t| <= |s| && t == s[..|t|]
      && (forall i :: |t| <= i < |s| ==> IsLineEnd(s[i]))
      && (|t| > 0 ==> !IsLineEnd(t[|t| - 1]))
  {
    if |s| > 0 && IsLineEnd(s[|s| - 1]) {
      var p := s[..|s| - 1];
      TrimIntendedRemovesLineEnds(p);
      var t := TrimIntended(p);
      assert forall i :: |t| <= i < |p| ==> s[i] == p[i];
    }
  }

  /** Trimming twice is trimming once. */
  lemma TrimIntendedIdempotent(s: string)
    ensures TrimIntended(TrimIntended(s)) == TrimIntended(s)
  {
    TrimIntendedRemovesLineEnds(s);
  }

  /** Where the written loop stays inside the message it agrees with the
      intended trim except for a final lone '\n', which it keeps. */
  lemma {:induction false} AsWrittenAgreesWithIntended(s: string)
    requires TrimAsWritten(s).Trimmed?
    ensures var t := TrimAsWritten(s).msg;
      t == TrimIntended(s) || (t == [s[0]] && s[0] == '\n' && TrimIntended(s) == [])
  {
    if |s| > 0 && ((|s| > 1 && s[|s| - 1] == '\n') || s[|s| - 1] == '\r') {
      AsWrittenAgreesWithIntended(s[..|s| - 1]);
      assert s[..|s| - 1][0] == s[0];
    }
  }

  /** The intended trim over the message buffer. */
  method TrimLineEnds(msg: array<char>, length: nat) returns (len: nat)
    requires length <= msg.Length
    modifies msg
    ensures len <= length
    ensures msg[..len] == TrimIntended(old(msg[..length]))
    ensures forall i :: len <= i < length ==> msg[i] == '\0'
    ensures forall i :: length <= i < msg.Length ==> msg[i] == old(msg[i])
  {
    ghost var s := msg[..length];
    len := length;
    while len > 0 && (msg[len - 1] == '\n' || msg[len - 1] == '\r')
      invariant len <= length
      invariant msg[..len] == s[..len]
      invariant TrimIntended(s[..len]) == TrimIntended(s)
      invariant forall i :: len <= i < length ==> msg[i] == '\0'
      invariant forall i :: length <= i < msg.Length ==> msg[i] == old(msg[i])
      decreases len
    {
      assert s[..len][..len - 1] == s[..len - 1];
      len := len - 1;
      msg[len] := '\0';
    }
  }

  /** `windows_hresult_strerror` around the trim: `formatted` is the message
      `FormatMessageA` produces (None when it fails).  The result is the
      trimmed copy, or None; `readsBeforeStart` reports the out-of-bounds read. */
  method HresultStrerror(formatted: Option<string>) returns (r: CStr, readsBeforeStart: bool)
    ensures formatted.None? ==> r.None? && !readsBeforeStart
    ensures formatted.Some? ==>
      (readsBeforeStart <==> TrimAsWritten(formatted.value).ReadsBeforeStart?)
    ensures formatted.Some? && !readsBeforeStart ==> r == Some(TrimAsWritten(formatted.value).msg)
  {
    if formatted.None? {
      return None, false;
    }
    var text := formatted.value;
    var msg := new char[|text|](i requires 0 <= i < |text| => text[i]);
    assert msg[..|text|] == text;
    var len;
    len, readsBeforeStart := TrimLineEndsAsWritten(msg, |text|);
    r := Some(msg[..len]);
  }
}
