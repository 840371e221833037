/** The WAVE reader (quasimoto/wave/reader.py). On construction it lists the
    RIFF chunks and checks the structure: exactly a `fmt ` chunk of size 16 whose
    record passes the bitrate check, then a `data` chunk whose size is a whole
    number of sample tuples. `samples` decodes the interleaved 16-bit points. */
module WaveReaders {
  import opened Bytes
  import opened Outcomes
  import opened Streams
  import opened ChunkTypes
  import opened Chunks
  import opened Riff
  import opened WaveFormats
  import opened FormatMixins
  import opened WaveWriters

  /** What a successfully constructed reader holds. */
  datatype WaveHeader = WaveHeader(format: WaveFormat, data: Chunk, numSamples: nat)

  /** `num_samples`: the data size over the bytes of one sample tuple, which
      must divide it. */
  function NumSamples(f: WaveFormat, size: nat): (r: Result<nat>)
    ensures SampleBytes(f).Fail? ==> r == Fail(BitsNotBytes)
    ensures SampleBytes(f).Ok? && f.channels * SampleBytes(f).value == 0 ==> r == Fail(DivisionByZero)
    ensures r.Ok? <==> SampleBytes(f).Ok? && f.channels * SampleBytes(f).value != 0
                       && size % (f.channels * SampleBytes(f).value) == 0
    ensures r.Ok? ==> r.value * (f.channels * SampleBytes(f).value) == size
  {
    match SampleBytes(f)
    case Fail(e) => Fail(e)
    case Ok(sampleBytes) =>
      var allChannels := f.channels * sampleBytes;
      if allChannels == 0 then Fail(DivisionByZero)
      else if size % allChannels != 0 then Fail(UnevenSamples)
      else Ok(size / allChannels)
  }

  /** The constructor's checks over the chunk list, in the order the source
      makes them; the last one is the division by the sample rate done for the
      duration shown in the log line. */
  function CheckChunks(cs: seq<Chunk>): (r: Result<WaveHeader>)
    requires ListShape(cs)
    ensures r.Ok? ==> |cs| == 2 && r.value.data == cs[1]
    ensures r.Ok? ==> cs[0].kind == FMT && cs[0].size == 16 && cs[0].data.Some?
    ensures r.Ok? ==> r.value.format == DecodeFormat(cs[0].data.value) && ValidHeader(r.value.format)
    ensures r.Ok? ==> cs[1].kind == DATA && r.value.format.sampleRate != 0
    ensures r.Ok? ==> NumSamples(r.value.format, cs[1].size) == Ok(r.value.numSamples)
  {
    if |cs| != 2 then Fail(ChunkCount)
    else if cs[0].kind != FMT then Fail(NotFormatChunk)
    else if cs[0].size != 16 then Fail(FormatSize)
    else if cs[0].data.None? then Fail(MissingData)
    else
      var f := DecodeFormat(cs[0].data.value);
      if !ValidHeader(f) then Fail(BadBitrate)
      else if cs[1].kind != DATA then Fail(NotDataChunk)
      else
        match NumSamples(f, cs[1].size)
        case Fail(e) => Fail(e)
        case Ok(n) =>
          if f.sampleRate == 0 then Fail(DivisionByZero)
          else Ok(WaveHeader(f, cs[1], n))
  }

  /** Tuple `k`: `width` points read at bytes `2 * (k * width + c)`. */
  function Frame(b: seq<Byte>, k: nat, width: nat): (r: seq<I16>)
    requires 2 * (k * width + width) <= |b|
    ensures |r| == width
  {
    seq<I16>(width, c requires 0 <= c < width => I16At(b, 2 * (k * width + c)))
  }

  /** The first `n` tuples of `width` points. */
  function Frames(b: seq<Byte>, n: nat, width: nat): (r: seq<seq<I16>>)
    requires 2 * (n * width) <= |b|
    ensures |r| == n
  {
    if n == 0 then []
    else
      assert (n - 1) * width + width == n * width;
      Frames(b, n - 1, width) + [Frame(b, n - 1, width)]
  }

  lemma {:induction false} FramesAt(b: seq<Byte>, n: nat, width: nat, k: nat)
    requires 2 * (n * width) <= |b| && k < n
    ensures 2 * (k * width + width) <= |b| && Frames(b, n, width)[k] == Frame(b, k, width)
  {
    assert (n - 1) * width + width == n * width;
    if k < n - 1 {
      FramesAt(b, n - 1, width, k);
    }
  }

  /** What `samples` yields for a header: 16-bit samples only, `numSamples`
      tuples of `channels` points each; a payload too short for them is a
      failed int16 read. */
  function SamplesOf(h: WaveHeader): (r: Result<seq<seq<I16>>>)
    ensures r.Ok? ==> |r.value| == h.numSamples
    ensures r.Ok? ==> forall k :: 0 <= k < |r.value| ==> |r.value[k]| == h.format.channels
  {
    if h.data.data.None? then Fail(MissingData)
    else
      match SampleBytes(h.format)
      case Fail(e) => Fail(e)
      case Ok(sampleBytes) =>
        if sampleBytes != 2 then Fail(Not16Bit)
        else
          var payload := h.data.data.value;
          if |payload| < 2 * (h.numSamples * h.format.channels) then Fail(ShortRead)
          else
            var fs := Frames(payload, h.numSamples, h.format.channels);
            assert forall k :: 0 <= k < |fs| ==> |fs[k]| == h.format.channels by {
              forall k | 0 <= k < |fs| ensures |fs[k]| == h.format.channels {
                FramesAt(payload, h.numSamples, h.format.channels, k);
              }
            }
            Ok(fs)
  }

  /** Decoding what `write` encoded gives back the same tuples. */
  lemma FramesRoundTrip(samples: seq<seq<I16>>, width: nat)
    requires forall k :: 0 <= k < |samples| ==> |samples[k]| == width
    ensures 2 * (|samples| * width) == |EncodeI16s(Flatten(samples))|
    ensures Frames(EncodeI16s(Flatten(samples)), |samples|, width) == samples
  {
    var flat := Flatten(samples);
    var b := EncodeI16s(flat);
    FlattenLength(samples, width);
    var fs := Frames(b, |samples|, width);
    forall k | 0 <= k < |samples| ensures fs[k] == samples[k] {
      FramesAt(b, |samples|, width, k);
      FrameDecodes(samples, width, k);
    }
  }

  /** Tuple `k` of the encoding decodes to `samples[k]`. */
  lemma FrameDecodes(samples: seq<seq<I16>>, width: nat, k: nat)
    requires forall k :: 0 <= k < |samples| ==> |samples[k]| == width
    requires k < |samples| && 2 * (|samples| * width) == |EncodeI16s(Flatten(samples))|
    ensures 2 * (k * width + width) <= |EncodeI16s(Flatten(samples))|
    ensures Frame(EncodeI16s(Flatten(samples)), k, width) == samples[k]
  {
    var flat := Flatten(samples);
    var b := EncodeI16s(flat);
    NextTupleBound(k, |samples|, width);
    forall c | 0 <= c < width ensures Frame(b, k, width)[c] == samples[k][c] {
      PointDecodes(samples, width, k, c);
    }
  }

  /** Point `c` of tuple `k` of the encoding decodes to `samples[k][c]`. */
  lemma PointDecodes(samples: seq<seq<I16>>, width: nat, k: nat, c: nat)
    requires forall k :: 0 <= k < |samples| ==> |samples[k]| == width
    requires k < |samples| && c < width && 2 * (k * width + width) <= |EncodeI16s(Flatten(samples))|
    ensures Frame(EncodeI16s(Flatten(samples)), k, width)[c] == samples[k][c]
  {
    FrameAt(EncodeI16s(Flatten(samples)), k, width, c);
    PointAt(samples, width, k, c);
  }

  lemma FrameAt(b: seq<Byte>, k: nat, width: nat, c: nat)
    requires c < width && 2 * (k * width + width) <= |b|
    ensures 2 * (k * width + c) + 2 <= |b| && Frame(b, k, width)[c] == I16At(b, 2 * (k * width + c))
  {
  }

  lemma PointAt(samples: seq<seq<I16>>, width: nat, k: nat, c: nat)
    requires forall k :: 0 <= k < |samples| ==> |samples[k]| == width
    requires k < |samples| && c < width
    ensures 2 * (k * width + c) + 2 <= |EncodeI16s(Flatten(samples))|
    ensures I16At(EncodeI16s(Flatten(samples)), 2 * (k * width + c)) == samples[k][c]
  {
    var flat := Flatten(samples);
    var i := k * width + c;
    FlattenAt(samples, width, k, c);
    EncodeI16sAt(flat, i);
    EncodeI16Decodes(flat[i], EncodeI16s(flat), 2 * i);
  }

  /** Where tuple `k` ends: no later than the end of the last of `n`. */
  lemma NextTupleBound(k: nat, n: nat, width: nat)
    requires k < n
    ensures k * width + width == (k + 1) * width <= n * width
  {
    assert k + 1 <= n;
    MulLeft(k + 1, n, width);
  }

  lemma MulLeft(a: nat, b: nat, width: nat)
    requires a <= b
    ensures a * width <= b * width
  {}

  /** `n` tuples of `width` 16-bit points fill a data chunk of `size` bytes. */
  lemma EndOfData(n: nat, width: nat, size: nat)
    requires n * (width * 2) == size
    ensures 2 * (n * width) == size
  {}

  /** One pass of the inner loop of `samples`: `width` int16 reads from the
      stream, positioned at tuple `k`; `complete` is false when the stream
      ends first. */
  method ReadTuple(stream: Stream, k: nat, width: nat) returns (tuple: seq<I16>, complete: bool)
    requires stream.Valid() && stream.pos == 2 * (k * width)
    modifies stream
    ensures stream.Valid() && stream.data == old(stream.data)
    ensures complete ==> 2 * (k * width + width) <= |stream.data| && stream.pos == 2 * (k * width + width)
    ensures complete ==> tuple == Frame(stream.data, k, width)
    ensures !complete ==> |stream.data| < 2 * (k * width + width)
  {
    var base := k * width;
    tuple := [];
    var j := 0;
    while j < width
      invariant 0 <= j <= width
      invariant stream.Valid() && stream.data == old(stream.data)
      invariant stream.pos == 2 * (base + j) <= |stream.data|
      invariant |tuple| == j
      invariant forall c :: 0 <= c < j ==> tuple[c] == I16At(stream.data, 2 * (base + c))
    {
      var raw := stream.Read(2);
      if |raw| < 2 {
        return tuple, false;
      }
      tuple := tuple + [I16At(raw, 0)];
      j := j + 1;
    }
    return tuple, true;
  }

  class WaveReader {
    const riff: RiffInterface
    const header: WaveHeader

    /** What construction guarantees about the header. */
    ghost predicate Valid() {
      0 <= header.data.size && NumSamples(header.format, header.data.size) == Ok(header.numSamples)
    }

    constructor (riff: RiffInterface, header: WaveHeader)
      ensures this.riff == riff && this.header == header
    {
      this.riff := riff;
      this.header := header;
    }

    /** `WaveReader(riff)`: a reader-mode RIFF whose remaining chunks pass
        `CheckChunks`. */
    static method Open(riff: RiffInterface) returns (r: Result<WaveReader>)
      requires riff.stream.Valid()
      modifies riff.stream
      ensures riff.stream.Valid() && riff.stream.data == old(riff.stream.data)
      ensures riff.isWriter ==> r == Fail(NotReader)
      ensures !riff.isWriter ==>
                var l := ParseChunks(old(riff.stream.data), old(riff.stream.pos));
                && (l.Fail? ==> r == Fail(l.error))
                && (l.Ok? ==> ListShape(l.value.chunks))
                && (l.Ok? && CheckChunks(l.value.chunks).Fail? ==> r == Fail(CheckChunks(l.value.chunks).error))
                && (l.Ok? && CheckChunks(l.value.chunks).Ok? ==>
                      r.Ok? && fresh(r.value) && r.value.riff == riff && r.value.Valid() &&
                      r.value.header == CheckChunks(l.value.chunks).value)
    {
      if riff.isWriter {
        return Fail(NotReader);
      }
      ghost var b := riff.stream.data;
      ghost var p := riff.stream.pos;
      var chunks := riff.Chunks();
      if chunks.Fail? {
        return Fail(chunks.error);
      }
      ParsedChunksShape(b, p);
      var checked := CheckChunks(chunks.value);
      if checked.Fail? {
        return Fail(checked.error);
      }
      var reader := new WaveReader(riff, checked.value);
      r := Ok(reader);
    }

    /** `samples`: `numSamples` tuples of `channels` points, each read as a
        little-endian int16 from a fresh stream over the payload; at the end
        the read position is the data size. */
    method Samples() returns (r: Result<seq<seq<I16>>>)
      requires Valid()
      ensures r == SamplesOf(header)
    {
      if header.data.data.None? {
        return Fail(MissingData);
      }
      var sampleBytes := SampleBytes(header.format);
      // Construction computed `num_samples`, so the width is whole bytes.
      assert sampleBytes.Ok?;
      if sampleBytes.value != 2 {
        return Fail(Not16Bit);
      }
      var payload := header.data.data.value;
      var n := header.numSamples;
      var width := header.format.channels;
      var stream := new Stream(payload);
      var frames: seq<seq<I16>> := [];
      var i := 0;
      while i < n
        invariant 0 <= i <= n
        invariant stream.Valid() && stream.data == payload
        invariant stream.pos == 2 * (i * width) && 2 * (i * width) <= |payload|
        invariant frames == Frames(payload, i, width)
      {
        var tuple, complete := ReadTuple(stream, i, width);
        if !complete {
          // The stream ends inside tuple `i`, so it ends before the last one.
          NextTupleBound(i, n, width);
          return Fail(ShortRead);
        }
        NextTupleBound(i, n, width);
        frames := frames + [tuple];
        i := i + 1;
      }
      // Confirm the read position is at the end of the data.
      assert stream.Tell() == header.data.size by { EndOfData(n, width, header.data.size); }
      r := Ok(frames);
    }
  }
}
