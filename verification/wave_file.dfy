/** A whole WAVE file, written and read back through the RIFF interface and
    the WAVE writer and reader, as tests/riff/test_riff.py does with a file
    path: the bytes a writer leaves behind, what a reader makes of any bytes,
    and the round trip between the two. */
module WaveFiles {
  import opened Bytes
  import opened Outcomes
  import opened Streams
  import opened ChunkTypes
  import opened Chunks
  import opened Riff
  import opened WaveFormats
  import opened FormatMixins
  import opened WaveWriters
  import opened WaveReaders

  /** The finished file for the encoded points `payload`: the RIFF header
      carrying the length of everything after it, the WAVE head, the data size
      and the payload. */
  function WaveFileBytes(f: WaveFormat, payload: seq<Byte>): (r: seq<Byte>)
    requires 36 + |payload| < 0x1_0000_0000
    ensures |r| == 44 + |payload|
  {
    TagBytes(RIFF) + LE32(36 + |payload|) + WaveHead(f) + LE32(|payload|) + payload
  }

  /** Open a writer over an empty stream, write `samples` and finalize. */
  method WriteWaveFile(channels: int, sampleRate: int, bits: int, samples: seq<seq<I16>>)
    returns (r: Result<seq<Byte>>)
    ensures FormatFor(channels, sampleRate, bits).Fail? ==> r == Fail(FormatFor(channels, sampleRate, bits).error)
    ensures FormatFor(channels, sampleRate, bits).Ok? && bits != 16 ==> r.Fail?
    ensures FormatFor(channels, sampleRate, bits).Ok? && bits == 16 && 36 + 2 * |Flatten(samples)| < 0x1_0000_0000 ==>
              r == Ok(WaveFileBytes(FormatFor(channels, sampleRate, bits).value, EncodeI16s(Flatten(samples))))
  {
    var s := new Stream([]);
    var riff := new RiffInterface.Writer(s);
    var started := WaveWriter.Open(riff, channels, sampleRate, bits);
    if started.Fail? {
      return Fail(started.error);
    }
    ghost var f := started.value.format;
    assert f == FormatFor(channels, sampleRate, bits).value;
    assert SampleBytes(f) == Ok(2) <==> bits == 16 by {
      TwoByteSamples(f);
    }
    OverwriteAtEnd([], RiffPlaceholder());
    OverwriteAtEnd(RiffPlaceholder(), WaveHead(f));
    r := WriteAndFinalize(started.value, samples);
  }

  /** Samples take two bytes exactly when they are 16 bits wide. */
  lemma TwoByteSamples(f: WaveFormat)
    ensures SampleBytes(f) == Ok(2) <==> f.bitsPerSample == 16
  {
  }

  /** The rest of `WriteWaveFile` once the writer is open over a stream
      holding just the RIFF placeholder and the WAVE head. */
  method WriteAndFinalize(writer: WaveWriter, samples: seq<seq<I16>>) returns (r: Result<seq<Byte>>)
    requires writer.riff.isWriter && writer.riff.stream.Valid()
    requires writer.riff.stream.data == RiffPlaceholder() + WaveHead(writer.format)
    modifies writer.riff.stream
    ensures SampleBytes(writer.format) != Ok(2) ==> r.Fail?
    ensures SampleBytes(writer.format) == Ok(2) && 36 + 2 * |Flatten(samples)| < 0x1_0000_0000 ==>
              r == Ok(WaveFileBytes(writer.format, EncodeI16s(Flatten(samples))))
  {
    var riff := writer.riff;
    var written := writer.Write(samples);
    if written.Fail? {
      return Fail(written.error);
    }
    ghost var payload := EncodeI16s(Flatten(samples));
    var finished := riff.Finalize();
    if finished.Fail? {
      return Fail(finished.error);
    }
    FinishedBytes(writer.format, payload);
    r := Ok(riff.stream.data);
  }

  /** Finalizing what the writer leaves patches the RIFF size to the length
      of everything after it. */
  lemma FinishedBytes(f: WaveFormat, payload: seq<Byte>)
    requires 36 + |payload| < 0x1_0000_0000
    ensures var d := RiffPlaceholder() + WaveHead(f) + LE32(|payload|) + payload;
            && 8 <= |d| < 0x1_0000_0008
            && Overwrite(d, 4, LE32(|d| - 8)) == WaveFileBytes(f, payload)
  {
    var rest := WaveHead(f) + LE32(|payload|) + payload;
    assert RiffPlaceholder() + WaveHead(f) + LE32(|payload|) + payload == TagBytes(RIFF) + LE32(0) + rest;
    PatchSlot(TagBytes(RIFF), LE32(0), LE32(36 + |payload|), rest);
  }

  /** What a reader makes of a file. */
  datatype WaveContents = WaveContents(header: WaveHeader, samples: seq<seq<I16>>)

  /** Reading `b`: the RIFF header chunk (its form is not checked), the WAVE
      structure checks on the chunks after it, then every sample tuple. */
  function ReadWave(b: seq<Byte>): (r: Result<WaveContents>)
    ensures r.Ok? ==> ValidHeader(r.value.header.format) && r.value.header.data.kind == DATA
    ensures r.Ok? ==> |r.value.samples| == r.value.header.numSamples
  {
    match ReadChunkAt(b, 0)
    case Fail(e) => Fail(e)
    case Ok(ChunkRead(None, _)) => Fail(MissingHeader)
    case Ok(ChunkRead(Some(h), p)) =>
      if h.kind != RIFF then Fail(NotRiff)
      else
        match ParseChunks(b, p)
        case Fail(e) => Fail(e)
        case Ok(l) =>
          ParsedChunksShape(b, p);
          match CheckChunks(l.chunks)
          case Fail(e) => Fail(e)
          case Ok(header) =>
            match SamplesOf(header)
            case Fail(e) => Fail(e)
            case Ok(samples) => Ok(WaveContents(header, samples))
  }

  /** Open a reader over `b`, construct the WAVE reader, take its samples and
      finalize; any bytes left over are only counted. */
  method ReadWaveFile(b: seq<Byte>) returns (r: Result<WaveContents>)
    ensures r == ReadWave(b)
  {
    var s := new Stream(b);
    var riff := RiffInterface.Reader(s);
    if riff.Fail? {
      return Fail(riff.error);
    }
    var reader := WaveReader.Open(riff.value);
    if reader.Fail? {
      return Fail(reader.error);
    }
    var samples := reader.value.Samples();
    if samples.Fail? {
      return Fail(samples.error);
    }
    var leftOver := riff.value.Finalize();
    r := Ok(WaveContents(reader.value.header, samples.value));
  }

  /** Where the parts of a finished file sit. */
  lemma WaveFileLayout(f: WaveFormat, payload: seq<Byte>)
    requires 36 + |payload| < 0x1_0000_0000 && |payload| % 2 == 0
    ensures var b := WaveFileBytes(f, payload);
            && b[0..4] == TagBytes(RIFF) && b[4..8] == LE32(36 + |payload|) && b[8..12] == TagBytes(WAVE)
            && b[12..] == LeavesBytes([Leaf(FMT, EncodeFormat(f)), Leaf(DATA, payload)])
  {
    var fmt := LeafBytes(FMT, EncodeFormat(f));
    var data := LeafBytes(DATA, payload);
    assert data == TagBytes(DATA) + LE32(|payload|) + payload by {
      assert Pad(|payload|) == [];
    }
    TwoLeaves(Leaf(FMT, EncodeFormat(f)), Leaf(DATA, payload));
    FileFields(TagBytes(RIFF), LE32(36 + |payload|), TagBytes(WAVE), fmt, TagBytes(DATA), LE32(|payload|), payload);
  }

  /** The fields of a file laid end to end: three four-byte fields, then the
      `fmt ` chunk, the `data` tag, its size and the payload. */
  lemma FileFields<T>(riff: seq<T>, size: seq<T>, wave: seq<T>, fmt: seq<T>, tag: seq<T>, dsize: seq<T>, payload: seq<T>)
    requires |riff| == 4 && |size| == 4 && |wave| == 4
    ensures var b := riff + size + (wave + fmt + tag) + dsize + payload;
            && b[0..4] == riff && b[4..8] == size && b[8..12] == wave
            && b[12..] == fmt + (tag + dsize + payload)
  {
    var b := riff + size + (wave + fmt + tag) + dsize + payload;
    assert b == riff + size + wave + (fmt + (tag + dsize + payload));
  }

  /** A sample tuple's bytes over its bytes per tuple is the tuple count. */
  lemma TupleCount(n: nat, width: nat)
    requires width > 0
    ensures (2 * (n * width)) % (width * 2) == 0 && (2 * (n * width)) / (width * 2) == n
  {
    assert 2 * (n * width) == n * (width * 2);
    ExactDivision(n, width * 2);
  }

  /** A multiple of `d` divides by `d` exactly. */
  lemma ExactDivision(n: nat, d: nat)
    requires d > 0
    ensures (n * d) % d == 0 && (n * d) / d == n
  {
    var q := (n * d) / d;
    var r := (n * d) % d;
    assert n * d == q * d + r;
    assert (n - q) * d == r by {
      assert (n - q) * d == n * d - q * d;
    }
    if n - q >= 1 {
      assert false;
    } else if n - q <= -1 {
      assert false;
    }
  }

  /** The chunks a reader finds in a finished file: the RIFF header with the
      `WAVE` form, then the `fmt ` chunk and the `data` chunk, up to the end. */
  lemma FileChunks(f: WaveFormat, payload: seq<Byte>)
    requires 36 + |payload| < 0x1_0000_0000 && |payload| % 2 == 0
    ensures var b := WaveFileBytes(f, payload);
            && ReadChunkAt(b, 0) == Ok(ChunkRead(Some(Chunk(RIFF, 36 + |payload|, None, Some(WAVE))), 12))
            && ParseChunks(b, 12) == Ok(ChunkList(WrittenChunks(f, payload), |b|))
  {
    var ls := [Leaf(FMT, EncodeFormat(f)), Leaf(DATA, payload)];
    WaveFileLayout(f, payload);
    HeaderThenLeaves(WaveFileBytes(f, payload), 36 + |payload|, ls);
    ReadBackTwo(ls[0], ls[1]);
  }

  /** Bytes holding a RIFF header of form `WAVE`, then written leaves up to
      the end, read as that header and those leaves. */
  lemma HeaderThenLeaves(b: seq<Byte>, size: U32, ls: seq<Leaf>)
    requires forall i :: 0 <= i < |ls| ==> Writable(ls[i])
    requires 12 <= |b| && b[0..4] == TagBytes(RIFF) && b[4..8] == LE32(size) && b[8..12] == TagBytes(WAVE)
    requires b[12..] == LeavesBytes(ls)
    ensures ReadChunkAt(b, 0) == Ok(ChunkRead(Some(Chunk(RIFF, size, None, Some(WAVE))), 12))
    ensures ParseChunks(b, 12) == Ok(ChunkList(ReadBack(ls), |b|))
  {
    assert ReadChunkAt(b, 0) == Ok(ChunkRead(Some(Chunk(RIFF, size, None, Some(WAVE))), 12)) by {
      ContainerRoundTrip(RIFF, size, WAVE, b, 0);
    }
    LeavesRoundTrip(ls, b, 12);
  }

  /** The two chunks a writer leaves after the RIFF header. */
  function WrittenChunks(f: WaveFormat, payload: seq<Byte>): (cs: seq<Chunk>)
    ensures ListShape(cs)
  {
    [Chunk(FMT, 16, Some(EncodeFormat(f)), None), Chunk(DATA, |payload|, Some(payload), None)]
  }

  /** The written chunks pass every structure check, with one sample tuple
      per `channels` points of the payload. */
  lemma WrittenChunksCheck(channels: int, sampleRate: int, samples: seq<seq<I16>>)
    requires FormatFor(channels, sampleRate, 16).Ok? && channels > 0 && sampleRate > 0
    requires forall k :: 0 <= k < |samples| ==> |samples[k]| == channels
    ensures var f := FormatFor(channels, sampleRate, 16).value;
            var cs := WrittenChunks(f, EncodeI16s(Flatten(samples)));
            CheckChunks(cs) == Ok(WaveHeader(f, cs[1], |samples|))
  {
    var f := FormatFor(channels, sampleRate, 16).value;
    var payload := EncodeI16s(Flatten(samples));
    DecodeEncode(f);
    WriterFormatValid(channels, sampleRate, 16);
    FramesRoundTrip(samples, channels);
    TupleCount(|samples|, channels);
    assert NumSamples(f, |payload|) == Ok(|samples|);
  }

  /** Round trip: a file written with a 16-bit format and tuples of
      `channels` points reads back with the same format and the same tuples. */
  lemma WaveRoundTrip(channels: int, sampleRate: int, samples: seq<seq<I16>>)
    requires FormatFor(channels, sampleRate, 16).Ok? && channels > 0 && sampleRate > 0
    requires forall k :: 0 <= k < |samples| ==> |samples[k]| == channels
    requires 36 + 2 * |Flatten(samples)| < 0x1_0000_0000
    ensures var f := FormatFor(channels, sampleRate, 16).value;
            var r := ReadWave(WaveFileBytes(f, EncodeI16s(Flatten(samples))));
            r.Ok? && r.value.header.format == f && r.value.samples == samples
  {
    var f := FormatFor(channels, sampleRate, 16).value;
    var payload := EncodeI16s(Flatten(samples));
    var cs := WrittenChunks(f, payload);
    var header := WaveHeader(f, cs[1], |samples|);
    assert |payload| % 2 == 0 by {
      DoubleIsEven(|Flatten(samples)|);
    }
    FileChunks(f, payload);
    WrittenChunksCheck(channels, sampleRate, samples);
    assert SamplesOf(header) == Ok(samples) by {
      FramesRoundTrip(samples, channels);
    }
    ReadWaveOf(WaveFileBytes(f, payload), Chunk(RIFF, 36 + |payload|, None, Some(WAVE)), 12, cs, header, samples);
  }

  lemma DoubleIsEven(n: nat)
    ensures (2 * n) % 2 == 0
  {
  }

  /** `ReadWave` once each of its steps is known to succeed. */
  lemma ReadWaveOf(b: seq<Byte>, h: Chunk, p: nat, cs: seq<Chunk>, header: WaveHeader, samples: seq<seq<I16>>)
    requires ReadChunkAt(b, 0) == Ok(ChunkRead(Some(h), p)) && h.kind == RIFF
    requires ParseChunks(b, p) == Ok(ChunkList(cs, |b|)) && ListShape(cs)
    requires CheckChunks(cs) == Ok(header) && SamplesOf(header) == Ok(samples)
    ensures ReadWave(b) == Ok(WaveContents(header, samples))
  {
  }

  /** The basic writer scenario of the tests: with the default format, 4096
      `(0, 0)` pairs make a 44-byte header plus 4 bytes per pair, and read back
      as 4096 `(0, 0)` pairs. */
  lemma SilentStereoRoundTrip()
    ensures var samples := seq(4096, _ => [0, 0]);
            var f := FormatFor(DefaultChannels, DefaultSampleRate, DefaultBits).value;
            && FormatFor(DefaultChannels, DefaultSampleRate, DefaultBits).Ok?
            && 36 + 2 * |Flatten(samples)| < 0x1_0000_0000
            && |WaveFileBytes(f, EncodeI16s(Flatten(samples)))| == 44 + 4 * 4096
            && ReadWave(WaveFileBytes(f, EncodeI16s(Flatten(samples)))).Ok?
            && ReadWave(WaveFileBytes(f, EncodeI16s(Flatten(samples)))).value.samples == samples
  {
    var samples: seq<seq<I16>> := seq(4096, _ => [0, 0]);
    DefaultFormat();
    FlattenLength(samples, 2);
    WaveRoundTrip(2, 44100, samples);
  }
}
