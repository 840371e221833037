/** The `fmt ` chunk record (quasimoto/wave/protocol.py): six little-endian
    fields in a fixed order, u16 type, u16 channels, u32 sample_rate,
    u32 bytes_per_second, u16 class, u16 bits_per_sample, sixteen bytes in all. */
module WaveFormats {
  import opened Bytes

  /** The record as stored. `kind` is declared with the `WaveType` enumeration
      and `klass` with `WaveClass`; the fields hold the raw integers. */
  datatype WaveFormat = WaveFormat(
    kind: U16,
    channels: U16,
    sampleRate: U32,
    bytesPerSecond: U32,
    klass: U16,
    bitsPerSample: U16)

  /** The size of the encoded record. */
  const FormatSize: nat := 16

  /** `bytes(format.array)`: the fields in declaration order, little-endian. */
  function EncodeFormat(f: WaveFormat): (r: seq<Byte>)
    ensures |r| == FormatSize
  {
    LE16(f.kind) + LE16(f.channels) + LE32(f.sampleRate) + LE32(f.bytesPerSecond)
      + LE16(f.klass) + LE16(f.bitsPerSample)
  }

  /** `format.array.update(data)` for a sixteen-byte payload. */
  function DecodeFormat(b: seq<Byte>): (f: WaveFormat)
    requires |b| == FormatSize
  {
    WaveFormat(U16At(b, 0), U16At(b, 2), U32At(b, 4), U32At(b, 8), U16At(b, 12), U16At(b, 14))
  }

  /** Where each field sits in the encoding. */
  lemma FormatLayout(f: WaveFormat)
    ensures var b := EncodeFormat(f);
            && b[0..2] == LE16(f.kind) && b[2..4] == LE16(f.channels)
            && b[4..8] == LE32(f.sampleRate) && b[8..12] == LE32(f.bytesPerSecond)
            && b[12..14] == LE16(f.klass) && b[14..16] == LE16(f.bitsPerSample)
  {
    var b := EncodeFormat(f);
    assert b == LE16(f.kind) + LE16(f.channels) + LE32(f.sampleRate) + LE32(f.bytesPerSecond)
              + LE16(f.klass) + LE16(f.bitsPerSample);
  }

  /** Decoding what was encoded gives back every field. */
  lemma DecodeEncode(f: WaveFormat)
    ensures DecodeFormat(EncodeFormat(f)) == f
  {
    var b := EncodeFormat(f);
    FormatLayout(f);
    LE16Decodes(f.kind, b, 0);
    LE16Decodes(f.channels, b, 2);
    LE32Decodes(f.sampleRate, b, 4);
    LE32Decodes(f.bytesPerSecond, b, 8);
    LE16Decodes(f.klass, b, 12);
    LE16Decodes(f.bitsPerSample, b, 14);
  }

  /** Encoding what was decoded gives back every byte. */
  lemma EncodeDecode(b: seq<Byte>)
    requires |b| == FormatSize
    ensures EncodeFormat(DecodeFormat(b)) == b
  {
    var f := DecodeFormat(b);
    U16AtEncodes(b, 0);
    U16AtEncodes(b, 2);
    U32AtEncodes(b, 4);
    U32AtEncodes(b, 8);
    U16AtEncodes(b, 12);
    U16AtEncodes(b, 14);
    assert b == b[0..2] + b[2..4] + b[4..8] + b[8..12] + b[12..14] + b[14..16];
  }
}
