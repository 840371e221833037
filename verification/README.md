# quasimoto core, modelled in Dafny

quasimoto is a small Python audio toolkit. This project models its core:

- **RIFF codec.** `RiffInterface` writes a `RIFF` header with a placeholder size, then leaf chunks (tag, little-endian 32-bit size, payload, and one NUL pad byte when the payload length is odd). `finalize` patches the header size to the file length minus 8. In reading mode it parses the header and the list of chunks. A 3-byte `ID3` trailer, or fewer than three bytes left, ends the chunk list.
- **WAVE layer.**
  - `WaveWriter` writes the `WAVE` form tag, the 16-byte `fmt ` record and the `data` tag, then streams 16-bit little-endian samples and patches the data size.
  - `WaveReader` expects exactly a `fmt ` chunk of size 16 followed by a `data` chunk. It validates `bytes_per_second`, derives the sample count, and decodes per-channel sample tuples.
- **TimeKeeper.** A sample clock (`time`, `iteration`, `sample_rate`) with callbacks scheduled by absolute sample index. `advance` moves one period forward and runs the callbacks due at the new index.
- **Notes, parameters, frequency, Sampler.**
  - Twelve-tone equal-temperament note frequencies.
  - `SourceParameters` built from dictionaries and notes.
  - The four waveforms: sine, triangle, square and sawtooth.
  - A `Sampler` that quantises `scalar × amplitude × waveform(now)`.
- **Source and SignalChannel.** A source pulls `value(time)` from the shared clock until its stop time. A channel mixes its enabled sources with equal weighting:
  - it divides by the contributor count only when there are two or more contributors;
  - it scales the sum by the channel amplitude and truncates it toward zero;
  - it then prunes the exhausted sources.
- **StereoInterface.** A left/right channel pair on one clock, with a queue of precomputed frames. `frames(n)` drains the queue first and computes the rest inline. It serialises the frames as interleaved 16-bit little-endian samples.

Layout:
- **Byte streams and byte-level helpers.**
  - Byte streams (`io.BytesIO` and files) are a `Stream` class (`stream.dfy`) holding a byte sequence and a cursor.
  - Byte codecs live in `bytes.dfy`; `reals.dfy` holds real-number helpers.
  - Python exceptions raised on input data are `Result` failures (`outcomes.dfy`).
- **Pure specification functions, with imperative methods over the Stream.**
  - Each codec operation is a pure function over `(bytes, cursor)`, such as `Riff.ReadChunkAt`, `Riff.ParseChunks` and `WaveReaders.SamplesOf`.
  - A method on the `Stream`-backed class is proved equal to it.
  - The round-trip lemmas are stated about the pure functions.
- **Stateful objects become classes.** The TimeKeeper, Sampler, Source, SignalChannel and StereoInterface are classes whose methods state their whole new state.
  - The mixer's step is also given as a pure function on a `Mixer` value (`Channels.Step`).
  - The stereo engine's output is given by `Stereo.Play`.
  - The properties are lemmas about these functions.

## Behaviour of the code worth knowing

- **TimeKeeper iteration.** `iteration` starts at `int(time / period)`, which truncates toward zero (quasimoto/sampler/time.py:29-31), and `advance` then adds one per tick. With a negative start time the two drift apart after one tick (`TimeKeepers.NegativeStartDrifts`).
- **Callbacks that never fire.** `call_at` stores a callback under `int(t × sample_rate)`, and `advance` fires only the list stored under exactly the new iteration. So a callback whose index is at or behind the clock never runs (`TimeKeepers.BehindNeverFires`). This includes a callback whose time lies after `time` but within the current sample.
- **The 16-bit check.** `WaveWriter.write` asserts a 16-bit depth (quasimoto/wave/writer.py:65) and writes a zero `data` size before the samples, then overwrites it with their byte count.
- **Truncated chunks and short reads.**
  - A truncated leaf payload is not an error: `stream.read(size)` returns what is left, and the chunk keeps its declared size (`Riff.ReadLeafAt`).
  - A short *size* read fails (`ShortSize`).
  - Three tag bytes other than `ID3` followed by nothing fail as an unknown tag (`ChunkTypes.ParseTagThreeByteTail`).
- **Disabled sources are never pruned.** Only enabled exhausted sources are pruned by a mix (`Channels.StepPrunes`). Disabled sources are not pulled at all.

## Model

| member | source | states |
|---|---|---|
| Bytes.LE16Decodes | quasimoto/riff/__init__.py:46-52 | reading a little-endian u16 back from its two encoded bytes yields the value |
| Bytes.U16AtEncodes | quasimoto/riff/__init__.py:46-52 | any two bytes are the encoding of the u16 read from them (decode is onto) |
| Bytes.LE32Decodes | quasimoto/riff/__init__.py:46-52 | reading a little-endian u32 (the chunk size field) from its encoding yields the value |
| Bytes.U32AtEncodes | quasimoto/riff/__init__.py:85-100 | re-encoding the u32 read from four bytes gives back those bytes |
| Bytes.EncodeI16Decodes | quasimoto/wave/reader.py:85-94 | an Int16 written little-endian two's complement reads back as the same signed value |
| Bytes.EncodeLow16 | quasimoto/enums/__init__.py:50-55 | emits two bytes, and for values in the signed 16-bit range they are exactly the Int16 encoding |
| Bytes.EncodeI16sAppend | quasimoto/wave/writer.py:72-78 | encoding a concatenation of sample points is the concatenation of the encodings (streamed writing) |
| Bytes.EncodeI16sAt | quasimoto/wave/writer.py:72-78 | point j of a stream occupies bytes 2j..2j+2 of the encoding |
| Bytes.AsciiRoundTrip | quasimoto/enums/__init__.py:42-46 | ASCII text encoded to bytes decodes back to the same text |
| Bytes.AsciiTextRoundTrip | quasimoto/enums/__init__.py:50-55 | ASCII bytes decoded to text encode back to the same bytes |
| Streams.Take | quasimoto/riff/__init__.py:66-69 | a read of n bytes returns min(n, remaining) bytes, the ones starting at the cursor |
| Streams.Overwrite | quasimoto/riff/__init__.py:94-100 | a write at a position replaces exactly the written span, keeps the bytes before and after, and grows the buffer only past its end |
| Streams.OverwriteAtEnd | quasimoto/riff/__init__.py:102-111 | writing at the end of the buffer appends |
| Streams.OverwriteTwice | quasimoto/riff/__init__.py:113-126 | two consecutive writes equal one write of the concatenation |
| Streams.Stream.Read | quasimoto/riff/__init__.py:66-69 | returns the bytes from the cursor (short at end of stream) and advances the cursor by their number, leaving the data unchanged |
| Streams.Stream.ReadAll | quasimoto/riff/__init__.py:136 | returns everything after the cursor and leaves the cursor at the end |
| Streams.Stream.Write | quasimoto/riff/__init__.py:109 | overwrites at the cursor and advances it by the written length |
| Streams.Stream.Seek | quasimoto/riff/__init__.py:94-95 | moves the cursor, data unchanged |
| Streams.Stream.SeekEnd | quasimoto/riff/__init__.py:132 | moves the cursor to the end, data unchanged |
| ChunkTypes.Tag | quasimoto/enums/__init__.py:19-28 | every chunk type has a 4-character ASCII tag |
| ChunkTypes.TagOfTag | quasimoto/enums/__init__.py:46 | looking a tag up by its text gives back the chunk type |
| ChunkTypes.ContainersAreRiffAndList | quasimoto/enums/__init__.py:31-34 | a chunk type is a container exactly when its tag is `RIFF` or `LIST` |
| ChunkTypes.TagBytesInjective | quasimoto/enums/__init__.py:19-28 | distinct chunk types have distinct tag bytes |
| ChunkTypes.ParseTag | quasimoto/enums/__init__.py:37-48 | a parsed tag never moves past the end; a recognised tag consumes exactly 4 bytes and is never `ID3 ` |
| ChunkTypes.ParseTagAtEnd | quasimoto/enums/__init__.py:42-43 | fewer than 3 bytes left yields "no chunk" and consumes them |
| ChunkTypes.ParseTagId3 | quasimoto/enums/__init__.py:44-45 | a 3-byte `ID3` prefix yields "no chunk" after consuming those 3 bytes |
| ChunkTypes.ParseTagThreeByteTail | quasimoto/enums/__init__.py:46 | three non-`ID3` bytes at the very end fail as an unknown tag |
| ChunkTypes.ParseTagRoundTrip | quasimoto/enums/__init__.py:37-55 | the 4 bytes written by `to_stream` for any type but ID3 parse back to that type, consuming 4 bytes |
| ChunkTypes.FromStream | quasimoto/enums/__init__.py:37-48 | reads a tag from the stream exactly as `ParseTag` describes, failing with its error, leaving the data unchanged |
| ChunkTypes.ToStream | quasimoto/enums/__init__.py:50-55 | writes the 4 tag bytes at the cursor and advances it by 4 |
| Chunks.NatDigitsValue | quasimoto/riff/chunk.py:22 | the decimal digits printed for a size read back as that size |
| Chunks.ChunkTextShape | quasimoto/riff/chunk.py:20-27 | the text of a chunk is `'<tag>' size=<n>`, followed by ` (form='<tag>')` exactly when a form is present |
| Riff.ReadChunkAt | quasimoto/riff/__init__.py:54-75 | a chunk read stays inside the buffer and a chunk found consumes at least its 8-byte header |
| Riff.ReadLeafAt | quasimoto/riff/__init__.py:66-69 | a leaf keeps its declared size and the available payload; unless at end of input, it consumes size plus the pad byte when the size is odd |
| Riff.Prepend | quasimoto/riff/__init__.py:77-83 | putting chunks in front of a parse result keeps success and the end position |
| Riff.ParseChunksStep | quasimoto/riff/__init__.py:77-83 | the chunk list is the chunk read at the cursor followed by the chunks after it |
| Riff.ParsedChunksShape | quasimoto/riff/chunk.py:12-18 | every parsed chunk has data exactly when it is a leaf, a form only when it is a container, a non-negative size, and (except possibly the last, truncated one) data of its declared size |
| Riff.ParseChunksAtEnd | quasimoto/riff/__init__.py:80-83 | at end of input the chunk list is empty |
| Riff.LeafRoundTrip | quasimoto/riff/__init__.py:102-126 | a leaf chunk as written (tag, size, payload, pad) reads back as the same kind, size and payload, consuming 8 + size + size mod 2 bytes |
| Riff.ContainerRoundTrip | quasimoto/riff/__init__.py:70-73 | a container header (tag, size, form tag) reads back as a chunk with that form and no data, consuming 12 bytes |
| Riff.TwoLeaves | quasimoto/riff/__init__.py:113-126 | the bytes of two written leaves are the first leaf's bytes followed by the second's |
| Riff.LeavesRoundTrip | quasimoto/riff/__init__.py:77-126 | any list of writable leaves written back to back parses back as exactly those chunks, ending at end of input |
| Riff.RiffInterface.Writer | quasimoto/riff/__init__.py:35-38 | a writer emits the `RIFF` tag and a zero size placeholder, advancing the cursor by 8 |
| Riff.RiffInterface.Reader | quasimoto/riff/__init__.py:40-44 | a reader reads the header chunk; it fails on a read error, on no chunk, or on a chunk other than `RIFF`, and otherwise keeps the header and leaves the cursor after it |
| Riff.RiffInterface.ReadSize | quasimoto/riff/__init__.py:46-52 | reads a little-endian u32 at the cursor and advances 4, or fails on fewer than 4 bytes |
| Riff.RiffInterface.Read | quasimoto/riff/__init__.py:54-75 | returns the chunk `ReadChunkAt` gives at the cursor and moves the cursor to its end |
| Riff.RiffInterface.Chunks | quasimoto/riff/__init__.py:77-83 | returns the chunk list `ParseChunks` gives, or its error, and moves the cursor to its end |
| Riff.RiffInterface.WriteSize | quasimoto/riff/__init__.py:85-100 | succeeds exactly for sizes in the u32 range, then writes the size at the seek position (or the cursor); otherwise nothing changes |
| Riff.RiffInterface.WriteData | quasimoto/riff/__init__.py:102-111 | writes size, payload and the pad byte for odd lengths; fails without writing when the length is not a u32 |
| Riff.RiffInterface.Write | quasimoto/riff/__init__.py:113-126 | refuses readers and container chunks without writing; otherwise writes the tag, and the sized payload when there is data |
| Riff.RiffInterface.Finalize | quasimoto/riff/__init__.py:128-140 | a writer patches length − 8 into bytes 4..8; a reader consumes and reports the remaining byte count |
| Riff.FinalizedSizeField | quasimoto/riff/__init__.py:131-134 | after finalisation the header size field reads back as the file length minus 8, and no other byte changes |
| WaveEnums.WaveTypeOf | quasimoto/enums/wave.py:13-16 | a format type is known exactly when it is 1 (PCM) |
| WaveEnums.WaveClassOf | quasimoto/enums/wave.py:22-27 | a class value is known exactly when it is 1, 2 or 4 |
| WaveEnums.ShapeOf | quasimoto/enums/wave.py:33-39 | a shape value is known exactly when it is 1..4 |
| WaveEnums.EnumValuesRoundTrip | quasimoto/enums/wave.py:13-39 | each enum member's value looks back up to that member |
| WaveEnums.EnumLookupsRoundTrip | quasimoto/enums/wave.py:13-39 | each value that looks up a member is that member's value |
| WaveEnums.ShapeValueInjective | quasimoto/enums/wave.py:33-39 | distinct shapes have distinct values |
| WaveFormats.FormatLayout | quasimoto/wave/protocol.py:17-27 | the format record is type u16, channels u16, sample rate u32, bytes per second u32, class u16 and bits per sample u16, little-endian, in that order |
| WaveFormats.DecodeEncode | quasimoto/wave/protocol.py:17-27 | a format record encoded to 16 bytes decodes back to itself |
| WaveFormats.EncodeDecode | quasimoto/wave/reader.py:41 | any 16 bytes decode to a record that encodes back to those bytes |
| FormatMixins.SampleBytes | quasimoto/wave/mixins.py:37-43 | the byte width exists exactly when the bit depth is a multiple of 8, and then is bits / 8 |
| FormatMixins.ValidHeaderInIntegers | quasimoto/wave/mixins.py:55-65 | the bitrate check holds exactly when 8 × bytes_per_second = sample_rate × bits × channels |
| WaveWriters.FlattenLength | quasimoto/wave/writer.py:72-78 | flattening n tuples of width w gives n × w points |
| WaveWriters.FlattenAt | quasimoto/wave/writer.py:72-78 | point c of tuple k is at position k × w + c of the flattened stream |
| WaveWriters.FormatFor | quasimoto/wave/writer.py:44-53 | the writer's record is PCM with the given channels, rate and bits, class = channels × bits / 8 and bytes per second = class × rate; it fails on channels × bits not divisible by 8 or fields out of range |
| WaveWriters.WriterFormatValid | quasimoto/wave/mixins.py:55-65 | every record the writer produces passes the reader's bitrate validation |
| WaveWriters.DefaultFormat | quasimoto/wave/writer.py:20-22 | the defaults give PCM, 2 channels, 44100 Hz, 176400 bytes/s, class 4 (STEREO_16), 16 bits |
| WaveWriters.WriteInt16 | quasimoto/wave/writer.py:75-77 | writes one point as two little-endian bytes at the cursor |
| WaveWriters.WritePoints | quasimoto/wave/writer.py:72-78 | appends the encoding of all points and counts 2 bytes per point |
| WaveWriters.WaveWriter.Open | quasimoto/wave/writer.py:28-59 | refuses a reader; writes `WAVE`, then fails on a bad format, else writes the `fmt ` chunk and the `data` tag (32 bytes in all) |
| WaveWriters.WaveWriter.WriteFormat | quasimoto/wave/writer.py:55-59 | writes the `fmt ` leaf with the encoded record and the `data` tag, 28 bytes |
| WaveWriters.WaveWriter.Write | quasimoto/wave/writer.py:61-80 | fails without writing unless samples are 2 bytes; otherwise appends the data size and all points, patching the size, which fails if it exceeds a u32 |
| WaveReaders.NumSamples | quasimoto/wave/reader.py:55-60 | succeeds exactly when the byte width exists, is non-zero per frame and divides the data size; the count times the frame width is the data size |
| WaveReaders.CheckChunks | quasimoto/wave/reader.py:33-52 | accepts exactly two chunks, `fmt ` of size 16 with data then `data`, with a valid bitrate, non-zero rate and a whole number of frames |
| WaveReaders.FramesAt | quasimoto/wave/reader.py:85-94 | tuple k of the decoded frames is the k-th run of `width` Int16 values |
| WaveReaders.SamplesOf | quasimoto/wave/reader.py:73-98 | the decoded samples are num_samples tuples, each with one value per channel |
| WaveReaders.FramesRoundTrip | quasimoto/wave/reader.py:73-98 | decoding the encoding of any equal-width tuples gives the same tuples (reader inverts writer) |
| WaveReaders.FrameDecodes | quasimoto/wave/reader.py:86-94 | decoding tuple k of an encoded stream gives tuple k back |
| WaveReaders.ReadTuple | quasimoto/wave/reader.py:86-94 | reads one tuple of Int16 values from the cursor, or reports that the data ran short |
| WaveReaders.WaveReader.Open | quasimoto/wave/reader.py:25-52 | refuses a writer; parses the chunk list and returns its error, the `CheckChunks` error, or a reader whose header is the checked one |
| WaveReaders.WaveReader.Samples | quasimoto/wave/reader.py:73-98 | yields exactly `SamplesOf(header)`; the end-of-data assertion is proved never to fail |
| WaveFiles.WriteWaveFile | quasimoto/wave/writer.py:28-87 | writing a whole file fails on a bad format or non-16-bit depth, and otherwise produces exactly the canonical 44-byte header plus encoded samples |
| WaveFiles.TwoByteSamples | quasimoto/wave/writer.py:65 | samples are 2 bytes exactly when the depth is 16 bits |
| WaveFiles.WriteAndFinalize | quasimoto/riff/__init__.py:128-134 | streaming samples through a writer and finalising gives the canonical file bytes |
| WaveFiles.FinishedBytes | quasimoto/riff/__init__.py:131-134 | finalising the written stream patches in 36 + payload size |
| WaveFiles.ReadWave | quasimoto/wave/reader.py:25-98 | a successfully read file has a valid header, a `data` chunk and num_samples tuples |
| WaveFiles.ReadWaveFile | quasimoto/wave/reader.py:99-104 | reading a file's bytes through a RIFF reader and wave reader gives `ReadWave` |
| WaveFiles.WaveFileLayout | quasimoto/wave/writer.py:41-59 | a written file is `RIFF`, size, `WAVE`, then the `fmt ` and `data` leaves |
| WaveFiles.FileChunks | quasimoto/riff/__init__.py:54-83 | a written file's header reads as `RIFF`/`WAVE` and its chunks as the written `fmt ` and `data` |
| WaveFiles.WrittenChunksCheck | quasimoto/wave/reader.py:33-60 | the chunks a 16-bit writer produces pass the reader's checks with the right sample count |
| WaveFiles.WaveRoundTrip | tests/riff/test_riff.py:115-132 | for any channels, rate and 16-bit samples, reading the written file gives back the format and the samples |
| WaveFiles.SilentStereoRoundTrip | tests/riff/test_riff.py:115-132 | 4096 silent stereo frames with the defaults make a 16428-byte file that reads back as the same frames |
| TimeKeepers.Period | quasimoto/sampler/time.py:26-27 | period × sample_rate = 1, positive for a positive rate |
| TimeKeepers.SampleNumber | quasimoto/sampler/time.py:29-31 | `int(time / period)`: the quotient truncated toward zero |
| TimeKeepers.NumSamples | quasimoto/sampler/time.py:33-35 | `int(duration × sample_rate)`: truncated toward zero |
| TimeKeepers.SampleNumberIsNumSamples | quasimoto/sampler/time.py:29-35 | the sample number of a time equals the number of samples in that duration |
| TimeKeepers.Scheduled | quasimoto/sampler/time.py:59-61 | adding a callback keeps every scheduled list non-empty |
| TimeKeepers.ScheduleAt | quasimoto/sampler/time.py:53-61 | `call_at` fails exactly for times not after the clock, and otherwise appends the callback under `num_samples(time)`, time and iteration unchanged |
| TimeKeepers.CumulativeTimes | quasimoto/sampler/time.py:72-78 | each sequence time is the previous one plus its offset, starting from the clock |
| TimeKeepers.SequenceIsCallAts | quasimoto/sampler/time.py:72-78 | `call_sequence` is `call_at` of each cumulative time in order, stopping at the first failure |
| TimeKeepers.SequenceAccepted | quasimoto/sampler/time.py:56 | a sequence is fully scheduled exactly when every cumulative time is in the future |
| TimeKeepers.Due | quasimoto/sampler/time.py:87-90 | an advance runs every callback listed under the new iteration, and nothing when none is listed |
| TimeKeepers.TicksSpec | quasimoto/sampler/time.py:80-91 | n advances move time by n periods and iteration by n, drop the lists of the passed indices, and run exactly those lists in order |
| TimeKeepers.SequenceStep | quasimoto/sampler/time.py:75-78 | a sequence stops at its first refused time, and otherwise continues from the scheduled clock |
| TimeKeepers.BehindNeverFires | quasimoto/sampler/time.py:58-61 | a callback scheduled at an index the clock has already reached never runs on any later advance |
| TimeKeepers.AheadFires | quasimoto/sampler/time.py:80-91 | a callback scheduled ahead of the clock, within n advances, runs at its index's time |
| TimeKeepers.DueHasLast | quasimoto/sampler/time.py:87-90 | the callback just added under an index is among those run there |
| TimeKeepers.TickKeepsSampleNumber | quasimoto/sampler/time.py:80-84 | from a non-negative synchronised clock, one advance keeps iteration = int(time / period) |
| TimeKeepers.TicksKeepSampleNumber | quasimoto/sampler/time.py:80-84 | the same holds for any number of advances, and time never goes back |
| TimeKeepers.NegativeStartDrifts | quasimoto/sampler/time.py:41-49 | starting at time −0.5 with period 1, one advance leaves iteration 1 while int(time / period) is 0 |
| TimeKeepers.PullTimeIncreasing | quasimoto/sampler/time.py:83 | with a positive period, later ticks are at strictly later times |
| TimeKeepers.TicksTime | quasimoto/sampler/time.py:83 | after k advances the clock reads t0 + k periods |
| TimeKeepers.TimeKeeper.constructor | quasimoto/sampler/time.py:41-51 | a new clock starts at the given time, iteration int(time / period), nothing scheduled |
| TimeKeepers.TimeKeeper.CallAt | quasimoto/sampler/time.py:53-61 | updates the schedule as `ScheduleAt` says, or fails leaving it unchanged |
| TimeKeepers.TimeKeeper.CallIn | quasimoto/sampler/time.py:63-70 | schedules at now + offset, returns that time, and succeeds exactly for a positive offset |
| TimeKeepers.TimeKeeper.CallSequence | quasimoto/sampler/time.py:72-78 | leaves the schedule and outcome `ScheduleSequence` gives |
| TimeKeepers.TimeKeeper.Advance | quasimoto/sampler/time.py:80-91 | one period and one iteration forward, the due callbacks run and removed |
| TimeKeepers.TimeKeeper.Copy | quasimoto/sampler/time.py:93-104 | a fresh clock with the same time, rate and schedule |
| TimeKeepers.CopyKeepsState | quasimoto/sampler/time.py:93-100 | a copy of a synchronised clock has the same state |
| Notes.NoteByIndex | quasimoto/sampler/notes.py:14-20 | fails exactly for negative indices; positive for a positive semitone ratio |
| Notes.SemitoneStep | quasimoto/sampler/notes.py:14-20 | one index up multiplies the frequency by the semitone ratio |
| Notes.OctaveStep | quasimoto/sampler/notes.py:8-20 | twelve indices up double the frequency |
| Notes.NoteOfValue | quasimoto/sampler/notes.py:27-56 | each note's value (0..11) looks back up to that note |
| Notes.NoteIndex | quasimoto/sampler/notes.py:58-60 | a note's index is non-negative exactly from octave −5 up, and its residue mod 12 is the note |
| Notes.Frequency | quasimoto/sampler/notes.py:58-60 | a note frequency fails exactly below octave −5 |
| Notes.FromIndexThenIndex | quasimoto/sampler/notes.py:62-65 | `from_index` then back to an index is the identity |
| Notes.IndexThenFromIndex | quasimoto/sampler/notes.py:58-65 | a note and octave to an index and back is the identity |
| Notes.OctaveDoubles | quasimoto/sampler/notes.py:58-60 | one octave up doubles a note's frequency |
| Notes.DefaultFrequencyIsMiddleC | quasimoto/sampler/notes.py:68 | the default frequency is C at octave offset 0 |
| Parameters.NormalizeShape | quasimoto/enums/wave.py:33-39 | a shape value normalises exactly when it is 1..4, to the shape with that value |
| Parameters.FromDict | quasimoto/sampler/parameters.py:26-36 | missing keys take the defaults, an unknown shape fails, and `enabled` is always the default True |
| Parameters.FromDictToDict | quasimoto/sampler/parameters.py:26-36 | parameters converted to a dictionary and back are unchanged except `enabled`, which becomes True |
| Parameters.FromEmptyDict | quasimoto/sampler/parameters.py:58 | an empty dictionary gives the default parameters |
| Parameters.FromNote | quasimoto/sampler/parameters.py:38-49 | parameters for a note are those of the keyword data with the note's frequency, failing below octave −5 |
| Parameters.FromIndexFrequency | quasimoto/sampler/parameters.py:51-55 | parameters for an index succeed exactly for non-negative indices and known shapes, with the frequency of that note index |
| Parameters.MiddleCIsDefault | quasimoto/sampler/parameters.py:58 | parameters for middle C with no data are the defaults |
| Frequencies.NextShape | quasimoto/sampler/frequency.py:43-45 | the next shape's value is 1 + value mod 4 |
| Frequencies.ShapeCycle | quasimoto/sampler/frequency.py:43-45 | shapes cycle sine, triangle, square, sawtooth; no shape is its own successor, and four steps return to the start |
| Frequencies.Harmonic | quasimoto/sampler/frequency.py:47-49 | harmonics of a positive frequency are positive |
| Frequencies.HarmonicOctaves | quasimoto/sampler/frequency.py:47-49 | harmonic 0 is the frequency, 1 doubles it and −1 halves it |
| Frequencies.HarmonicCompose | quasimoto/sampler/frequency.py:47-49 | harmonic b of harmonic a is harmonic a + b |
| Frequencies.HarmonicInverse | quasimoto/sampler/frequency.py:47-49 | harmonic −n undoes harmonic n |
| Frequencies.PeriodOf | quasimoto/sampler/frequency.py:55-57 | period × frequency = 1, positive exactly for positive frequencies |
| Frequencies.QuantizeToPeriod | quasimoto/sampler/frequency.py:59-62 | fails exactly for frequency 0 (division by zero) |
| Frequencies.QuantizeBounds | quasimoto/sampler/frequency.py:59-62 | for a positive frequency, the quantised time is after the time, at most one period later, and a whole number of periods |
| Frequencies.SquareWave | quasimoto/sampler/frequency.py:74-78 | the square wave is ±1, +1 exactly in the first half of each cycle |
| Frequencies.SawtoothWave | quasimoto/sampler/frequency.py:80-84 | the sawtooth lies in [−1, 1) |
| Frequencies.TriangleWave | quasimoto/sampler/frequency.py:64-72 | for a positive frequency the triangle lies in [−1, 1] |
| Frequencies.Wave | quasimoto/sampler/frequency.py:32-84 | dispatch by shape fails exactly for triangle or sawtooth at frequency 0; sine is the sine oracle at now × frequency; the others lie in [−1, 1] |
| Frequencies.WavePeriodic | quasimoto/sampler/frequency.py:51-84 | every waveform repeats after one period |
| Frequencies.SquarePeriodic | quasimoto/sampler/frequency.py:74-78 | the square wave repeats after one period |
| Samplers.Scalar | quasimoto/sampler/__init__.py:49-50 | the scalar is 2^(bits−1) − 1, non-negative for at least one bit |
| Samplers.DefaultScalar | quasimoto/sampler/__init__.py:49-50 | with 16 bits the scalar is 32767 |
| Samplers.SampleBounded | quasimoto/sampler/__init__.py:76-84 | a quantised sample with amplitude and waveform in [−1, 1] never exceeds the scalar in magnitude |
| Samplers.Sampler.constructor | quasimoto/sampler/__init__.py:27-50 | a sampler keeps its clock and settings, computes the scalar, and starts disabled with proportion 0 |
| Samplers.Sampler.Value | quasimoto/sampler/__init__.py:76-84 | the value fails exactly where the waveform divides by zero, and stays within the scalar for amplitudes and waveforms in [−1, 1] |
| Samplers.Sampler.Next | quasimoto/sampler/__init__.py:90-100 | exhausted exactly at or after the stop time, else the value at the clock's time |
| Samplers.Sampler.Copy | quasimoto/sampler/__init__.py:52-62 | a fresh sampler with the same clock and settings, disabled |
| Samplers.Sampler.CopyWith | quasimoto/sampler/__init__.py:64-74 | a copy re-pitched by the harmonic and re-windowed by the stop time when given |
| Samplers.Sampler.NextShape | quasimoto/sampler/frequency.py:43-45 | moves to the next shape, nothing else changes |
| Sources.SamplesFrom | quasimoto/sampler/source.py:118-130 | n pulls with a tick after each give n samples, or exhaustion |
| Sources.SamplesAt | quasimoto/sampler/source.py:128-130 | sample k is the source's value at t0 + k periods |
| Sources.SamplesStep | quasimoto/sampler/source.py:106-116 | one more pull either exhausts (at or past the stop time) or appends the value at that tick's time |
| Sources.SamplesFailPersist | quasimoto/sampler/source.py:128-130 | once a run of pulls is exhausted, every longer run is too |
| Sources.SamplesComplete | quasimoto/sampler/source.py:118-130 | n samples are produced exactly when n = 0 or the last pull time is before the stop time |
| Sources.Duplicated | quasimoto/sampler/source.py:145-149 | one stereo tuple per mono sample |
| Sources.Source.constructor | quasimoto/sampler/source.py:29-57 | a source takes its settings from the parameters, its stop time from the duration (now + duration) when given, and starts with proportion 0 |
| Sources.Source.SetDuration | quasimoto/sampler/source.py:59-63 | a duration sets the stop time to now + duration; none leaves it |
| Sources.Source.EnableEvent | quasimoto/sampler/source.py:47-51 | enables the source, nothing else changes |
| Sources.Source.DisableEvent | quasimoto/sampler/source.py:53-57 | disables the source, nothing else changes |
| Sources.Source.Next | quasimoto/sampler/source.py:106-116 | exhausted exactly at or past the stop time, else the value at the clock's time |
| Sources.Source.Copy | quasimoto/sampler/source.py:73-75 | a fresh source with the same clock, parameters and state |
| Sources.Source.Clone | quasimoto/sampler/source.py:77-87 | a copy, re-windowed and re-pitched when asked |
| Sources.Source.Create | quasimoto/sampler/source.py:93-104 | builds a source from the dictionary (or the defaults when absent), failing on an unknown shape |
| Sources.Source.SampleFor | quasimoto/sampler/source.py:118-136 | the samples gathered over a duration are `SamplesFrom` over num_samples(duration) ticks of a copied clock; the source's own clock is untouched |
| Sources.Source.ToWave | quasimoto/sampler/source.py:145-149 | the file written for a duration reads back as the samples duplicated to stereo, failing on exhaustion or out-of-range samples |
| Sources.Source.NextShape | quasimoto/sampler/frequency.py:43-45 | moves to the next shape, nothing else changes |
| Channels.OnlySuccessTruthy | quasimoto/sampler/channel.py:14-25 | only the success result is truthy |
| Channels.Lower | quasimoto/sampler/channel.py:100 | lower-casing keeps the length, leaves no upper-case letter, and keeps every other character |
| Channels.LowerIdempotent | quasimoto/sampler/channel.py:100 | lower-casing twice is lower-casing once |
| Channels.Without | quasimoto/sampler/channel.py:75-76 | removing names keeps exactly the others, in order and distinct |
| Channels.WithoutTwice | quasimoto/sampler/channel.py:75-76 | removing one name after a set is removing their union |
| Channels.WithoutAppended | quasimoto/sampler/channel.py:110-155 | removing a just-appended name restores the list |
| Channels.Views | quasimoto/sampler/channel.py:56-58 | the mixer sees every registered source's enabled flag, stop time, amplitude and voice |
| Channels.Pulls | quasimoto/sampler/channel.py:56-65 | one pull per registered name, in registration order |
| Channels.StoppedNames | quasimoto/sampler/channel.py:64-65 | the names marked for removal are exactly those whose pull was exhausted |
| Channels.MixSilent | quasimoto/sampler/channel.py:44-78 | with no contributor the mix is 0 |
| Channels.MixSingle | quasimoto/sampler/channel.py:67-78 | with exactly one contributor the mix is int(raw × source amplitude × channel amplitude), undivided |
| Channels.MixEqualWeight | quasimoto/sampler/channel.py:67-73 | when every contributor weighs x, the mix is int(x × channel amplitude), whatever their number |
| Channels.MixBounded | quasimoto/sampler/channel.py:56-78 | when every weighted contribution is within b and the channel amplitude within 1, so is the mix |
| Channels.TotalBound | quasimoto/sampler/channel.py:56-65 | the sum of contributions is within contributors × b |
| Channels.WithoutRegistered | quasimoto/sampler/channel.py:75-76 | pruning keeps the name list and the registry in step |
| Channels.StepKeeps | quasimoto/sampler/channel.py:44-78 | a mix keeps the names and registry in step, keeps the amplitude and only removes sources |
| Channels.StepPrunes | quasimoto/sampler/channel.py:56-76 | after a mix a source is gone exactly when it was enabled and past its stop time |
| Channels.StepValue | quasimoto/sampler/channel.py:44-78 | the mixed value is computed from the pulls of all registered names |
| Channels.FactoryTable.constructor | quasimoto/sampler/channel.py:34-42 | a channel starts with no factories |
| Channels.MixPulls | quasimoto/sampler/channel.py:51-78 | the loop's value and removal list are those of the mix over the registration order |
| Channels.PullEach | quasimoto/sampler/channel.py:56-65 | the loop accumulates the total, the contributor count and the exhausted names of all pulls |
| Channels.PullOne | quasimoto/sampler/channel.py:57-65 | one pull adds its weighted value, counts a contributor, or marks the source for removal |
| Channels.SignalChannel.constructor | quasimoto/sampler/channel.py:34-42 | a channel starts empty, on the given clock, with the parameters' settings |
| Channels.SignalChannel.Value | quasimoto/sampler/channel.py:44-78 | returns the mix and leaves the registry `Step` prescribes, its own settings unchanged |
| Channels.SignalChannel.PullAll | quasimoto/sampler/channel.py:51-73 | the pulled value and the exhausted names are those of `Step` |
| Channels.SignalChannel.Prune | quasimoto/sampler/channel.py:75-76 | removes exactly the given names from the list and the registry |
| Channels.SignalChannel.RemoveAll | quasimoto/sampler/channel.py:75-76 | the removal loop deletes exactly the given names |
| Channels.SignalChannel.Next | quasimoto/sampler/source.py:106-116 | a channel is exhausted at its stop time, else mixes as `Step` says |
| Channels.SignalChannel.Copy | quasimoto/sampler/channel.py:80-91 | a fresh channel on the same clock with the same sources, sharing the factory table, other settings default |
| Channels.SignalChannel.RegisterFactory | quasimoto/sampler/channel.py:93-108 | registers under the lower-cased class name, or reports a duplicate leaving the table unchanged |
| Channels.SignalChannel.RegisterSource | quasimoto/sampler/channel.py:110-128 | reports a duplicate name or a different clock without change, else appends the source |
| Channels.SignalChannel.RemoveSource | quasimoto/sampler/channel.py:145-155 | reports an absent name without change, else removes it |
| Channels.SignalChannel.RegisterDynamic | quasimoto/sampler/channel.py:130-143 | fails on an unknown factory name or shape, else registers a fresh source built from the data, with `register_source`'s outcomes |
| Channels.RegisterThenRemove | quasimoto/sampler/channel.py:110-155 | registering a new source and removing it restores the registry and the name list |
| Stereo.EncodeFramesAppend | quasimoto/stereo/__init__.py:55-76 | the bytes of concatenated frame runs are the concatenated bytes |
| Stereo.EncodeFramesAt | quasimoto/stereo/__init__.py:58-74 | frame k occupies bytes 4k..4k+4 |
| Stereo.FramesDecode | quasimoto/stereo/__init__.py:60-61 | the left and right samples of frame k read back as Int16 at 4k and 4k + 2 |
| Stereo.FramesAreWaveData | quasimoto/stereo/__init__.py:52-76 | the output bytes of in-range frames are the WAVE data bytes of those stereo tuples |
| Stereo.Lefts | quasimoto/stereo/__init__.py:63 | the left log entries are the frames' left samples |
| Stereo.Rights | quasimoto/stereo/__init__.py:64 | the right log entries are the frames' right samples |
| Stereo.PlayAdd | quasimoto/stereo/__init__.py:36-42 | playing a + b ticks is playing a ticks, then b more from where they left off |
| Stereo.BufferedFramesMatch | quasimoto/stereo/__init__.py:44-76 | taking frames from a queue precomputed for k ticks and computing the rest inline gives the same frames as computing them all inline |
| Stereo.PlayPrefix | quasimoto/stereo/__init__.py:36-42 | a shorter run is a prefix of a longer one |
| Stereo.PlaySilent | quasimoto/stereo/__init__.py:24-42 | with no sources on either channel every frame is (0, 0) |
| Stereo.PlayKeepsSilence | quasimoto/stereo/__init__.py:36-42 | any mixer that keeps an empty channel empty and silent plays only (0, 0) frames |
| Stereo.StepSilent | quasimoto/sampler/channel.py:51-78 | an empty channel mixes to 0 and stays empty |
| Stereo.PlayMirrored | quasimoto/stereo/__init__.py:27-29 | two channels in the same state produce identical left and right samples forever |
| Stereo.StereoInterface.constructor | quasimoto/stereo/__init__.py:24-34 | a fresh clock at 0 and two channels in the same state, empty queue and logs |
| Stereo.StereoInterface.Next | quasimoto/stereo/__init__.py:36-42 | pulls left then right at the current time, then advances the clock once |
| Stereo.StereoInterface.BufferToDuration | quasimoto/stereo/__init__.py:44-50 | appends max(num_samples(duration) − queue length, 0) freshly played frames, never shrinking the queue |
| Stereo.StereoInterface.Frames | quasimoto/stereo/__init__.py:52-76 | emits min(queue, n) queued frames then the rest played inline, as interleaved Int16 bytes, logging every sample |
| Stereo.StereoInterface.FromQueue | quasimoto/stereo/__init__.py:57-64 | drains the first count queued frames into bytes and the logs |
| Stereo.StereoInterface.OnDemand | quasimoto/stereo/__init__.py:66-74 | plays count frames inline into bytes and the logs |

## Left out

- Logging and the debug `print` in `RiffInterface.read` (quasimoto/riff/__init__.py:59) are not modelled. A reader's `finalize` returns the trailing byte count instead of logging it.
- `from_path` context managers on the RIFF, reader and writer are left out: file opening and closing is I/O. `WaveFiles.WriteWaveFile` calls finalize explicitly instead.
- The `pyaudio` callback (`StereoInterface.callback`) and the audio device are left out. The callback only forwards `frames`.
- Concurrency between the producer filling the queue and the real-time consumer is not modelled. The queue is a sequence owned by one thread.
- Plotting (`Source.plot`, `Sampler.plot`) is left out: it is graphics output. `Source.get_samples` is `Sources.Source.SampleFor`, with the handler's list as the result.
- `proportion_pool` (quasimoto/sampler/frequency.py:87-123) is left out. Only the `proportion` field it updates is kept.
- `math.sin` and `2 ** (1 / 12)` are parameters: `sine`, and `semitone` constrained by `Notes.IsSemitone` where a lemma needs it. Their bodies are floating-point library calls.
- Floating point is modelled as exact reals. Rounding of `float` arithmetic, `divmod` on floats, and infinities or NaNs are not modelled.
- `Channels.Lower` lower-cases ASCII letters only; Unicode case mapping is not modelled.
- `TimeKeepers.TimeKeeper.constructor`: requires a non-zero sample rate. In Python `TimeKeeper(sample_rate=0)` raises `ZeroDivisionError` when it computes the period (quasimoto/sampler/time.py:27); the model does not return that failure.
- `Sources.Source.Copy`: `SourceInterface.__copy__` is abstract (quasimoto/sampler/source.py:69-71). The model gives it a body that copies every field, and `Clone`, `SampleFor` and `ToWave` are built on that copy.
- `SignalChannel`'s inherited `clone`, `sample_for`, `get_samples` and `to_wave` (quasimoto/sampler/source.py:77-149) are not modelled. The channel's own `__copy__` (quasimoto/sampler/channel.py:80-91) builds a channel with the default parameters, so the copy loses the amplitude and the stop time. In `sample_for` only the channel's clock is replaced by a copy, and the registered sources keep reading the original clock.
- `TimeKeepers.TimeKeeper.Copy`: `copy(self.callbacks)` shares the per-index lists between the two clocks in Python. The model copies values, so aliasing between the copies is not captured.
- Callbacks are not run. Each run is recorded as a `Firing(callback, time)` in the keeper's `fired` log. What a callback does to other objects (for instance `enable_event`) is a separate method call.
- Nested channels (a `SignalChannel` registered inside another) are left out. Sources in a channel are leaf sources whose `value` is a function supplied at construction.
- The abstract `SourceInterface.value` is a function parameter `voice`. The Sampler's own `value` is modelled separately in `Samplers.Sampler.Value`.
- `Samplers.Sampler.Value`: `int(...)` of a value computed through `math.sin` may differ from the exact real result by floating-point rounding.
- Inheritance (`PeriodMixin`, `FormatMixin`, `HasFrequencyMixin`, `SourceInterface`) is flattened. The mixin members are functions, and the fields are repeated in each class.
- `Channels.SignalChannel.Value`: the mixer reads sources through `Channels.ViewOf`. A source registered twice in different channels is not tracked across them.
- `WaveWriters.WaveWriter.Write` takes points already typed as Int16, so the `struct.error` raised for an out-of-range `int` is not modelled. `Sources.Source.ToWave` checks the range explicitly instead.
- `StereoInterface` uses `WaveWriter.to_stream`, which is not defined in quasimoto/wave/writer.py. It is modelled as writing the low 16 bits little-endian (`Bytes.EncodeLow16`).
- The stereo channels carry no stop time (`Stereo.StereoInterface.Valid`). A channel's `StopIteration` inside `StereoInterface.next` would propagate as an exception, and that path is not modelled.
- quasimoto/wave/__init__.py, quasimoto/sampler/signature.py and the command-line entry points are not part of this model.
