/** The backend format tables checked against the independent description of
    each format in Formats: every sample size a backend records, every bit
    width, signedness and byte order it requests, is the one the format's name
    stands for. */
module FormatConsistency {
  import opened Native
  import opened Formats
  import Alsa
  import PulseAudio
  import Oss
  import Qsa
  import Sndio
  import Windows

  /** The bytes one sample of a format occupies, for the formats that have
      fixed-size samples. */
  function BytesPerSample(d: Descriptor): (r: Option<nat>)
    ensures d.LinearPcm? ==> r == Some(d.bytes)
    ensures d.FloatPcm? && d.bits % 8 == 0 ==> r.Some? && r.value * 8 == d.bits
    ensures d.ALaw? || d.MuLaw? ==> r == Some(1)
    ensures !(d.LinearPcm? || d.FloatPcm? || d.ALaw? || d.MuLaw?) ==> r.None?
  {
    match d
    case LinearPcm(_, _, bytes, _) => Some(bytes)
    case FloatPcm(bits, _) => Some(bits / 8)
    case ALaw | MuLaw => Some(1)
    case _ => None
  }

  /** ALSA records the described sample size for every fixed-size format, and
      one byte for the IEC958, ADPCM, MPEG and GSM formats. */
  lemma AlsaSampleSize(f: Format)
    requires f != AC3
    ensures Alsa.PcmSpecOf(f).value.sampleSize ==
      if BytesPerSample(Describe(f)).Some? then BytesPerSample(Describe(f)).value else 1
  {
  }

  /** PulseAudio's sample size for each mapped format is the described one. */
  lemma PulseAudioSampleSize(f: Format)
    requires PulseAudio.SampleFormatOf(f, true).Some?
    ensures BytesPerSample(Describe(f)) == Some(PulseAudio.SampleSize(PulseAudio.SampleFormatOf(f, true).value))
  {
  }

  /** QSA only plays 8- and 16-bit linear PCM, with the described size, little
      endian when it has an order. */
  lemma QsaSampleSize(f: Format)
    requires Qsa.QsaSpecOf(f).Some?
    ensures Describe(f).LinearPcm?
    ensures BytesPerSample(Describe(f)) == Some(Qsa.QsaSpecOf(f).value.sampleSize)
    ensures Describe(f).order != BigEndian
  {
  }

  /** OSS accepts linear PCM only up to 16 bits, besides the compressed
      encodings. */
  lemma OssEncodings(f: Format)
    requires f in Oss.Accepted
    ensures Describe(f).LinearPcm? ==> Describe(f).bits <= 16
    ensures !Describe(f).LinearPcm? ==> Describe(f) in {ALaw, MuLaw, ImaAdpcm, Mpeg, Ac3}
  {
  }

  /** The sndio classifiers agree with the description: the bit width of every
      linear format whose samples are not padded to 32 bits, the signedness of
      every linear format, and the byte order of every linear format narrower
      than 32 bits (a one-byte sample counting as big-endian).  Every other
      answer is the sentinel. */
  lemma SndioClassifiers(f: Format)
    ensures var d := Describe(f);
      && (Sndio.GetBits(f) != -1 <==> d.LinearPcm? && (d.bits + 7) / 8 == d.bytes)
      && (Sndio.GetBits(f) != -1 ==> Sndio.GetBits(f) == d.bits)
      && (Sndio.IsSig(f) != -1 <==> d.LinearPcm?)
      && (d.LinearPcm? ==> (Sndio.IsSig(f) == 1 <==> d.signed))
      && (Sndio.IsLe(f) != -1 <==> d.LinearPcm? && d.bits != 32)
      && (Sndio.IsLe(f) != -1 ==> (Sndio.IsLe(f) == 1 <==> d.order == LittleEndian))
  {
  }

  /** Windows asks for the described bit width, with the tag of the described
      encoding. */
  lemma WindowsBits(f: Format)
    requires Windows.WaveSpecOf(f).Some?
    ensures var spec := Windows.WaveSpecOf(f).value;
      && Some(spec.bits / 8) == BytesPerSample(Describe(f))
      && (spec.tag == Windows.WAVE_FORMAT_PCM <==> Describe(f).LinearPcm?)
      && (spec.tag == Windows.WAVE_FORMAT_IEEE_FLOAT <==> Describe(f).FloatPcm?)
      && (Describe(f).LinearPcm? || Describe(f).FloatPcm? ==> spec.bits == Describe(f).bits)
  {
  }

  /** Every backend accepts S16LE: the one format a caller can rely on. */
  lemma S16LEEverywhere()
    ensures Alsa.PcmSpecOf(S16LE).Some?
    ensures PulseAudio.SampleFormatOf(S16LE, false).Some?
    ensures Oss.OssFormatOf(S16LE).Some?
    ensures Qsa.QsaSpecOf(S16LE).Some?
    ensures Sndio.GetBits(S16LE) != -1 && Sndio.IsSig(S16LE) != -1 && Sndio.IsLe(S16LE) != -1
    ensures Windows.WaveSpecOf(S16LE).Some?
  {
  }
}
