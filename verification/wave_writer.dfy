/** The WAVE writer (quasimoto/wave/writer.py). On construction it finishes
    the RIFF header with the `WAVE` form, writes the `fmt ` chunk and the `data`
    tag; `write` then appends a size slot and the interleaved 16-bit samples and
    patches the slot. */
module WaveWriters {
  import opened Bytes
  import opened Outcomes
  import opened Streams
  import opened ChunkTypes
  import opened Chunks
  import opened Riff
  import opened WaveFormats
  import opened FormatMixins
  import opened WaveEnums

  const DefaultSampleRate: int := 44100
  const DefaultChannels: int := 2
  const DefaultBits: int := 16

  /** The points of a sequence of sample tuples, tuple after tuple. */
  function Flatten(samples: seq<seq<I16>>): (points: seq<I16>)
    ensures samples == [] ==> points == []
  {
    if samples == [] then [] else Flatten(samples[..|samples| - 1]) + samples[|samples| - 1]
  }

  /** Tuples of `width` points flatten to `width` points per tuple. */
  lemma {:induction false} FlattenLength(samples: seq<seq<I16>>, width: nat)
    requires forall k :: 0 <= k < |samples| ==> |samples[k]| == width
    ensures |Flatten(samples)| == width * |samples|
  {
    if samples != [] {
      var n := |samples| - 1;
      FlattenLength(samples[..n], width);
      OneMore(width, n);
    }
  }

  lemma OneMore(width: nat, n: nat)
    ensures width * n + width == width * (n + 1)
  {
  }

  /** Point `c` of tuple `k` lands at `k * width + c`. */
  lemma {:induction false} FlattenAt(samples: seq<seq<I16>>, width: nat, k: nat, c: nat)
    requires forall i :: 0 <= i < |samples| ==> |samples[i]| == width
    requires k < |samples| && c < width
    ensures k * width + c < |Flatten(samples)| && Flatten(samples)[k * width + c] == samples[k][c]
  {
    var n := |samples| - 1;
    var front := samples[..n];
    FlattenLength(samples, width);
    FlattenLength(front, width);
    TupleIndexBound(k, c, |samples|, width);
    assert Flatten(samples) == Flatten(front) + samples[n];
    if k < n {
      TupleIndexBound(k, c, n, width);
      FlattenAt(front, width, k, c);
    } else {
      assert k * width == |Flatten(front)|;
    }
  }

  /** Point `c` of tuple `k` of `n` tuples of `width` points is in range. */
  lemma TupleIndexBound(k: nat, c: nat, n: nat, width: nat)
    requires k < n && c < width
    ensures k * width + c < n * width && n * width == width * n
  {
    calc {
      k * width + c;
    <
      k * width + width;
    ==
      (k + 1) * width;
    <=
      { assert k + 1 <= n; }
      n * width;
    }
  }

  /** The format the constructor fills in for `channels`, `sampleRate` and
      `bits`: PCM, class = channels * bits / 8 bytes per tuple, and
      bytes_per_second = class * sample_rate. Channels times bits must be a
      whole number of bytes, and every field must fit its width. */
  function FormatFor(channels: int, sampleRate: int, bits: int): (r: Result<WaveFormat>)
    ensures r.Fail? ==> r.error in {OddBits, FieldOutOfRange}
    ensures r.Ok? ==> (channels * bits) % 8 == 0
    ensures r.Ok? ==> var f := r.value;
              && WaveTypeOf(f.kind) == Some(PCM)
              && f.channels == channels && f.sampleRate == sampleRate && f.bitsPerSample == bits
              && 8 * f.klass == channels * bits
              && f.bytesPerSecond == f.klass * sampleRate
  {
    if (channels * bits) % 8 != 0 then Fail(OddBits)
    else
      var classNum := channels * bits / 8;
      var bytesPerSecond := classNum * sampleRate;
      if !(0 <= channels < 0x1_0000 && 0 <= sampleRate < 0x1_0000_0000 && 0 <= bytesPerSecond < 0x1_0000_0000
           && 0 <= classNum < 0x1_0000 && 0 <= bits < 0x1_0000)
      then Fail(FieldOutOfRange)
      else Ok(WaveFormat(WaveTypeValue(PCM), channels, sampleRate, bytesPerSecond, classNum, bits))
  }

  /** The header the writer produces always passes `validate_header`. */
  lemma WriterFormatValid(channels: int, sampleRate: int, bits: int)
    requires FormatFor(channels, sampleRate, bits).Ok?
    ensures ValidHeader(FormatFor(channels, sampleRate, bits).value)
  {
    var f := FormatFor(channels, sampleRate, bits).value;
    ValidHeaderInIntegers(f);
    calc {
      8 * f.bytesPerSecond;
      8 * (f.klass * sampleRate);
      (8 * f.klass) * sampleRate;
      (channels * bits) * sampleRate;
      sampleRate * bits * channels;
    }
  }

  /** The defaults give 16-bit stereo PCM at 44100 Hz: class STEREO_16, and
      176400 bytes per second. */
  lemma DefaultFormat()
    ensures FormatFor(DefaultChannels, DefaultSampleRate, DefaultBits)
         == Ok(WaveFormat(1, 2, 44100, 176400, 4, 16))
    ensures WaveClassOf(4) == Some(Stereo16)
  {
  }

  /** What the constructor writes after the RIFF header: the `WAVE` form, the
      `fmt ` chunk with its sixteen-byte record, and the `data` tag alone. */
  function WaveHead(f: WaveFormat): (r: seq<Byte>)
    ensures |r| == 32
  {
    TagBytes(WAVE) + LeafBytes(FMT, EncodeFormat(f)) + TagBytes(DATA)
  }

  /** `Int16.kind.write(point, stream)`: two bytes, little-endian. */
  method WriteInt16(point: I16, s: Stream)
    requires s.Valid()
    modifies s
    ensures s.Valid()
    ensures s.data == Overwrite(old(s.data), old(s.pos), EncodeI16(point)) && s.pos == old(s.pos) + 2
  {
    s.Write(EncodeI16(point));
  }

  /** The points of one tuple, each written as a 16-bit integer at the end
      of the stream, with the count of bytes written. */
  method WritePoints(points: seq<I16>, s: Stream) returns (written: int)
    requires s.Valid() && s.pos == |s.data|
    modifies s
    ensures s.Valid() && s.pos == |s.data|
    ensures s.data == old(s.data) + EncodeI16s(points) && written == 2 * |points|
  {
    written := 0;
    var j := 0;
    while j < |points|
      invariant 0 <= j <= |points|
      invariant s.Valid() && s.pos == |s.data|
      invariant s.data == old(s.data) + EncodeI16s(points[..j]) && written == 2 * j
    {
      ghost var d := s.data;
      WriteInt16(points[j], s);
      OverwriteAtEnd(d, EncodeI16(points[j]));
      assert points[..j + 1] == points[..j] + [points[j]];
      EncodeI16sAppend(points[..j], [points[j]]);
      assert EncodeI16s([points[j]]) == EncodeI16(points[j]);
      Regroup(old(s.data), EncodeI16s(points[..j]), EncodeI16(points[j]));
      written := written + 2;
      j := j + 1;
    }
    assert points[..j] == points;
  }

  /** Overwriting the size slot just after `base` changes only the slot. */
  lemma PatchSlot(base: seq<Byte>, old4: seq<Byte>, new4: seq<Byte>, rest: seq<Byte>)
    requires |old4| == 4 && |new4| == 4
    ensures Overwrite(base + old4 + rest, |base|, new4) == base + new4 + rest
  {
    var d := base + old4 + rest;
    assert d[..|base|] == base;
    assert d[|base| + 4..] == rest;
  }

  class WaveWriter {
    const riff: RiffInterface
    const format: WaveFormat

    constructor (riff: RiffInterface, format: WaveFormat)
      ensures this.riff == riff && this.format == format
    {
      this.riff := riff;
      this.format := format;
    }

    /** `WaveWriter(riff, num_channels, sample_rate, bits_per_sample)`. A
        reader-mode RIFF is refused before anything is written; the `WAVE` form
        is written before the width check, so a refused format leaves it behind. */
    static method Open(riff: RiffInterface, channels: int, sampleRate: int, bits: int) returns (r: Result<WaveWriter>)
      requires riff.stream.Valid()
      modifies riff.stream
      ensures riff.stream.Valid()
      ensures !riff.isWriter ==>
                r == Fail(NotWriter) && riff.stream.data == old(riff.stream.data) && riff.stream.pos == old(riff.stream.pos)
      ensures riff.isWriter && FormatFor(channels, sampleRate, bits).Fail? ==>
                r == Fail(FormatFor(channels, sampleRate, bits).error) &&
                riff.stream.data == Overwrite(old(riff.stream.data), old(riff.stream.pos), TagBytes(WAVE)) &&
                riff.stream.pos == old(riff.stream.pos) + 4
      ensures riff.isWriter && FormatFor(channels, sampleRate, bits).Ok? ==>
                r.Ok? && fresh(r.value) && r.value.riff == riff &&
                r.value.format == FormatFor(channels, sampleRate, bits).value &&
                riff.stream.data == Overwrite(old(riff.stream.data), old(riff.stream.pos), WaveHead(r.value.format)) &&
                riff.stream.pos == old(riff.stream.pos) + 32
    {
      if !riff.isWriter {
        return Fail(NotWriter);
      }
      ghost var b0 := riff.stream.data;
      ghost var p0 := riff.stream.pos;
      ToStream(WAVE, riff.stream);
      var formatted := FormatFor(channels, sampleRate, bits);
      if formatted.Fail? {
        return Fail(formatted.error);
      }
      var f := formatted.value;
      WriteFormat(riff, f);
      ghost var tail := LeafBytes(FMT, EncodeFormat(f)) + TagBytes(DATA);
      OverwriteTwice(b0, p0, TagBytes(WAVE), tail);
      Regroup(TagBytes(WAVE), LeafBytes(FMT, EncodeFormat(f)), TagBytes(DATA));
      var w := new WaveWriter(riff, f);
      r := Ok(w);
    }

    /** The rest of the constructor's output: the `fmt ` chunk for `f`, then
        the `data` tag. */
    static method WriteFormat(riff: RiffInterface, f: WaveFormat)
      requires riff.isWriter && riff.stream.Valid()
      modifies riff.stream
      ensures riff.stream.Valid()
      ensures riff.stream.data
           == Overwrite(old(riff.stream.data), old(riff.stream.pos), LeafBytes(FMT, EncodeFormat(f)) + TagBytes(DATA))
      ensures riff.stream.pos == old(riff.stream.pos) + 28
    {
      ghost var b0 := riff.stream.data;
      ghost var p0 := riff.stream.pos;
      var data := EncodeFormat(f);
      var written := riff.Write(Chunk(FMT, |data|, Some(data)));
      ghost var fmt := LeafBytes(FMT, data);
      assert |fmt| == 24;
      ToStream(DATA, riff.stream);
      OverwriteTwice(b0, p0, fmt, TagBytes(DATA));
    }

    /** `write(samples)`: only 2-byte samples are supported. At the end of the
        stream a zero size slot is written, then every point of every tuple in
        order, then the slot is patched with the byte count; a count that does
        not fit 32 bits fails after the points are written. */
    method Write(samples: seq<seq<I16>>) returns (r: Result<()>)
      requires riff.stream.Valid()
      modifies riff.stream
      ensures riff.stream.Valid()
      ensures SampleBytes(format).Fail? ==>
                r == Fail(BitsNotBytes) && riff.stream.data == old(riff.stream.data) && riff.stream.pos == old(riff.stream.pos)
      ensures SampleBytes(format).Ok? && SampleBytes(format).value != 2 ==>
                r == Fail(Not16Bit) && riff.stream.data == old(riff.stream.data) && riff.stream.pos == old(riff.stream.pos)
      ensures SampleBytes(format) == Ok(2) && 2 * |Flatten(samples)| < 0x1_0000_0000 ==>
                r == Ok(()) &&
                riff.stream.data == old(riff.stream.data) + LE32(2 * |Flatten(samples)|) + EncodeI16s(Flatten(samples)) &&
                riff.stream.pos == |old(riff.stream.data)| + 4
      ensures SampleBytes(format) == Ok(2) && 2 * |Flatten(samples)| >= 0x1_0000_0000 ==>
                r == Fail(SizeOutOfRange) &&
                riff.stream.data == old(riff.stream.data) + LE32(0) + EncodeI16s(Flatten(samples)) &&
                riff.stream.pos == |riff.stream.data|
    {
      var sampleBytes := SampleBytes(format);
      if sampleBytes.Fail? {
        return Fail(sampleBytes.error);
      }
      if sampleBytes.value != 2 {
        return Fail(Not16Bit);
      }
      var s := riff.stream;
      ghost var base := s.data;
      s.SeekEnd();
      var sizePos := s.Tell();
      var placed := riff.WriteSize(0, None);
      OverwriteAtEnd(base, LE32(0));
      var size := 0;
      var i := 0;
      while i < |samples|
        invariant 0 <= i <= |samples|
        invariant s.Valid() && s.pos == |s.data|
        invariant s.data == base + LE32(0) + EncodeI16s(Flatten(samples[..i]))
        invariant size == 2 * |Flatten(samples[..i])|
      {
        var written := WritePoints(samples[i], s);
        assert samples[..i + 1][..i] == samples[..i];
        assert Flatten(samples[..i + 1]) == Flatten(samples[..i]) + samples[i];
        EncodeI16sAppend(Flatten(samples[..i]), samples[i]);
        Regroup(base + LE32(0), EncodeI16s(Flatten(samples[..i])), EncodeI16s(samples[i]));
        size := size + written;
        i := i + 1;
      }
      assert samples[..i] == samples;
      var patched := riff.WriteSize(size, Some(sizePos));
      if !patched {
        return Fail(SizeOutOfRange);
      }
      PatchSlot(base, LE32(0), LE32(size), EncodeI16s(Flatten(samples)));
      r := Ok(());
    }
  }
}
