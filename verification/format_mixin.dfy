/** The format-derived quantities shared by the WAVE reader and writer
    (quasimoto/wave/mixins.py). The `channels`, `sample_bits` and `sample_rate`
    getters are the record's own fields (`channels`, `bitsPerSample`,
    `sampleRate`); what is derived is the sample width in bytes and the
    bitrate check. */
module FormatMixins {
  import opened Outcomes
  import opened WaveFormats

  /** `sample_bytes`: the sample width in bytes, defined only for widths that
      are a whole number of bytes. */
  function SampleBytes(f: WaveFormat): (r: Result<nat>)
    ensures r.Ok? <==> f.bitsPerSample % 8 == 0
    ensures r.Fail? ==> r.error == BitsNotBytes
    ensures r.Ok? ==> 8 * r.value == f.bitsPerSample
  {
    if f.bitsPerSample % 8 != 0 then Fail(BitsNotBytes) else Ok(f.bitsPerSample / 8)
  }

  /** `validate_header`: bytes_per_second equals sample_rate times
      bits_per_sample times channels, divided by 8 (a true division). */
  predicate ValidHeader(f: WaveFormat) {
    f.bytesPerSecond as real == (f.sampleRate * f.bitsPerSample * f.channels) as real / 8.0
  }

  /** The check in integers: the true division is matched exactly when eight
      times the byte rate is the product. */
  lemma ValidHeaderInIntegers(f: WaveFormat)
    ensures ValidHeader(f) <==> 8 * f.bytesPerSecond == f.sampleRate * f.bitsPerSample * f.channels
  {
    var p := f.sampleRate * f.bitsPerSample * f.channels;
    assert p as real / 8.0 * 8.0 == p as real;
  }
}
