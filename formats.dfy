/** The sample formats of the public API (`enum audio_object_format`) and an
    independent description of each one: its encoding family, the number of
    significant bits, the bytes a sample occupies and its byte order.  The
    backend tables are checked against this description in FormatConsistency. */
module Formats {
  import opened Native

  /** The 38 values of `enum audio_object_format`, in declaration order. */
  datatype Format =
    | S8 | U8
    | S16LE | S16BE | U16LE | U16BE
    | S18LE | S18BE | U18LE | U18BE
    | S20LE | S20BE | U20LE | U20BE
    | S24LE | S24BE | U24LE | U24BE
    | S24_32LE | S24_32BE | U24_32LE | U24_32BE
    | S32LE | S32BE | U32LE | U32BE
    | FLOAT32LE | FLOAT32BE | FLOAT64LE | FLOAT64BE
    | IEC958LE | IEC958BE
    | ALAW | ULAW | ADPCM | MPEG | GSM | AC3

  /** Byte order; a one-byte sample has none. */
  datatype ByteOrder = LittleEndian | BigEndian | SingleByte

  /** What a format value stands for. */
  datatype Descriptor =
    | LinearPcm(signed: bool, bits: nat, bytes: nat, order: ByteOrder)
    | FloatPcm(bits: nat, order: ByteOrder)
    | Iec958(order: ByteOrder)
    | ALaw | MuLaw | ImaAdpcm | Mpeg | Gsm | Ac3

  function Describe(f: Format): Descriptor
  {
    match f
    case S8 => LinearPcm(true, 8, 1, SingleByte)
    case U8 => LinearPcm(false, 8, 1, SingleByte)
    case S16LE => LinearPcm(true, 16, 2, LittleEndian)
    case S16BE => LinearPcm(true, 16, 2, BigEndian)
    case U16LE => LinearPcm(false, 16, 2, LittleEndian)
    case U16BE => LinearPcm(false, 16, 2, BigEndian)
    case S18LE => LinearPcm(true, 18, 3, LittleEndian)
    case S18BE => LinearPcm(true, 18, 3, BigEndian)
    case U18LE => LinearPcm(false, 18, 3, LittleEndian)
    case U18BE => LinearPcm(false, 18, 3, BigEndian)
    case S20LE => LinearPcm(true, 20, 3, LittleEndian)
    case S20BE => LinearPcm(true, 20, 3, BigEndian)
    case U20LE => LinearPcm(false, 20, 3, LittleEndian)
    case U20BE => LinearPcm(false, 20, 3, BigEndian)
    case S24LE => LinearPcm(true, 24, 3, LittleEndian)
    case S24BE => LinearPcm(true, 24, 3, BigEndian)
    case U24LE => LinearPcm(false, 24, 3, LittleEndian)
    case U24BE => LinearPcm(false, 24, 3, BigEndian)
    case S24_32LE => LinearPcm(true, 24, 4, LittleEndian)
    case S24_32BE => LinearPcm(true, 24, 4, BigEndian)
    case U24_32LE => LinearPcm(false, 24, 4, LittleEndian)
    case U24_32BE => LinearPcm(false, 24, 4, BigEndian)
    case S32LE => LinearPcm(true, 32, 4, LittleEndian)
    case S32BE => LinearPcm(true, 32, 4, BigEndian)
    case U32LE => LinearPcm(false, 32, 4, LittleEndian)
    case U32BE => LinearPcm(false, 32, 4, BigEndian)
    case FLOAT32LE => FloatPcm(32, LittleEndian)
    case FLOAT32BE => FloatPcm(32, BigEndian)
    case FLOAT64LE => FloatPcm(64, LittleEndian)
    case FLOAT64BE => FloatPcm(64, BigEndian)
    case IEC958LE => Iec958(LittleEndian)
    case IEC958BE => Iec958(BigEndian)
    case ALAW => ALaw
    case ULAW => MuLaw
    case ADPCM => ImaAdpcm
    case MPEG => Mpeg
    case GSM => Gsm
    case AC3 => Ac3
  }

  /** The format a description stands for, if any: the inverse of Describe. */
  function FormatOf(d: Descriptor): (r: Option<Format>)
  {
    match d
    case LinearPcm(signed, bits, bytes, order) => LinearFormatOf(signed, bits, bytes, order)
    case FloatPcm(bits, order) =>
      if bits == 32 && order == LittleEndian then Some(FLOAT32LE)
      else if bits == 32 && order == BigEndian then Some(FLOAT32BE)
      else if bits == 64 && order == LittleEndian then Some(FLOAT64LE)
      else if bits == 64 && order == BigEndian then Some(FLOAT64BE)
      else None
    case Iec958(order) =>
      if order == LittleEndian then Some(IEC958LE)
      else if order == BigEndian then Some(IEC958BE)
      else None
    case ALaw => Some(ALAW)
    case MuLaw => Some(ULAW)
    case ImaAdpcm => Some(ADPCM)
    case Mpeg => Some(MPEG)
    case Gsm => Some(GSM)
    case Ac3 => Some(AC3)
  }

  function LinearFormatOf(signed: bool, bits: nat, bytes: nat, order: ByteOrder): (r: Option<Format>)
  {
    if bits == 8 && bytes == 1 && order == SingleByte then Some(if signed then S8 else U8)
    else if order == SingleByte then None
    else
      var le := order == LittleEndian;
      if bits == 16 && bytes == 2 then
        Some(if signed then (if le then S16LE else S16BE) else (if le then U16LE else U16BE))
      else if bits == 18 && bytes == 3 then
        Some(if signed then (if le then S18LE else S18BE) else (if le then U18LE else U18BE))
      else if bits == 20 && bytes == 3 then
        Some(if signed then (if le then S20LE else S20BE) else (if le then U20LE else U20BE))
      else if bits == 24 && bytes == 3 then
        Some(if signed then (if le then S24LE else S24BE) else (if le then U24LE else U24BE))
      else if bits == 24 && bytes == 4 then
        Some(if signed then (if le then S24_32LE else S24_32BE) else (if le then U24_32LE else U24_32BE))
      else if bits == 32 && bytes == 4 then
        Some(if signed then (if le then S32LE else S32BE) else (if le then U32LE else U32BE))
      else None
  }

  /** Decoding a format's description gives the format back. */
  lemma DescribeRoundTrip(f: Format)
    ensures FormatOf(Describe(f)) == Some(f)
  {
  }

  /** No two formats have the same description. */
  lemma DescribeInjective(f: Format, g: Format)
    ensures Describe(f) == Describe(g) ==> f == g
  {
    DescribeRoundTrip(f);
    DescribeRoundTrip(g);
  }

  /** A linear PCM sample occupies the fewest whole bytes that hold its bits,
      except for the 24-in-32 formats. */
  lemma LinearPcmPacking(f: Format)
    requires Describe(f).LinearPcm?
    ensures var d := Describe(f);
      d.bytes == (d.bits + 7) / 8 || (d.bits == 24 && d.bytes == 4)
    ensures var d := Describe(f); (d.order == SingleByte) <==> d.bits == 8
  {
  }
}
