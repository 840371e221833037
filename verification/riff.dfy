/** The RIFF container codec (quasimoto/riff/__init__.py).

    A chunk on the wire is a four-byte ASCII tag, a little-endian u32 size and
    then either the payload (leaf chunks) followed by one NUL pad byte when the
    size is odd, or a nested form tag (container chunks: RIFF and LIST).

    `ReadChunkAt` and `ParseChunks` say what the reader makes of a byte string
    from a given cursor; `LeafBytes` says what the writer emits. The class
    `RiffInterface` is the stateful interface of the source, whose methods are
    proved against these functions. */
module Riff {
  import opened Bytes
  import opened Outcomes
  import opened Streams
  import opened ChunkTypes
  import opened Chunks

  // ------------------------------------------------------------ reading

  /** A chunk read (None: the stream has no more chunks) and the cursor after it. */
  datatype ChunkRead = ChunkRead(chunk: Option<Chunk>, next: nat)

  /** What `RiffInterface.read` makes of `b` from cursor `pos`. */
  function ReadChunkAt(b: seq<Byte>, pos: nat): (r: Result<ChunkRead>)
    requires pos <= |b|
    ensures r.Ok? ==> pos <= r.value.next <= |b|
    ensures r.Ok? && r.value.chunk.Some? ==> r.value.next >= pos + 8
  {
    match ParseTag(b, pos)
    case Fail(e) => Fail(e)
    case Ok(TagRead(None, p)) => Ok(ChunkRead(None, p))
    case Ok(TagRead(Some(kind), p)) => ReadBodyAt(b, kind, p)
  }

  /** The rest of a chunk once its tag `kind` is read and the cursor is at `p`:
      the size, then a leaf's payload or a container's form. */
  function ReadBodyAt(b: seq<Byte>, kind: ChunkType, p: nat): (r: Result<ChunkRead>)
    requires p <= |b|
    ensures r.Ok? ==> r.value.chunk.Some? && p + 4 <= r.value.next <= |b|
  {
    if p + 4 > |b| then Fail(ShortSize)
    else
      var size := U32At(b, p);
      if !IsContainer(kind) then Ok(ReadLeafAt(b, kind, size, p + 4))
      else
        match ParseTag(b, p + 4)
        case Fail(e) => Fail(e)
        case Ok(TagRead(form, q)) => Ok(ChunkRead(Some(Chunk(kind, size, None, form)), q))
  }

  /** A leaf's payload at `p`: `size` bytes or fewer at the end of the stream
      (the read is not checked for length), then one pad byte when `size` is odd. */
  function ReadLeafAt(b: seq<Byte>, kind: ChunkType, size: U32, p: nat): (r: ChunkRead)
    requires p <= |b|
    ensures r.chunk == Some(Chunk(kind, size, Some(Take(b, p, size)), None))
    ensures p <= r.next <= |b|
    ensures r.next < |b| ==> r.next == p + size + size % 2
  {
    var data := Take(b, p, size);
    var afterData := p + |data|;
    var afterPad := if size % 2 == 1 then afterData + |Take(b, afterData, 1)| else afterData;
    ChunkRead(Some(Chunk(kind, size, Some(data), None)), afterPad)
  }

  /** The result of a read without the cursor. */
  function ChunkOf(r: Result<ChunkRead>): Result<Option<Chunk>> {
    match r
    case Fail(e) => Fail(e)
    case Ok(cr) => Ok(cr.chunk)
  }

  /** Every chunk `chunks()` yields, in stream order, and the cursor after the
      read that ended the sequence. */
  datatype ChunkList = ChunkList(chunks: seq<Chunk>, next: nat)

  /** What `list(RiffInterface.chunks())` makes of `b` from cursor `pos`: read
      chunks until a read yields None; any failing read fails the whole list. */
  function ParseChunks(b: seq<Byte>, pos: nat): (r: Result<ChunkList>)
    requires pos <= |b|
    ensures r.Ok? ==> pos <= r.value.next <= |b|
    decreases |b| - pos
  {
    match ReadChunkAt(b, pos)
    case Fail(e) => Fail(e)
    case Ok(ChunkRead(None, p)) => Ok(ChunkList([], p))
    case Ok(ChunkRead(Some(c), p)) => Prepend([c], ParseChunks(b, p))
  }

  function Prepend(cs: seq<Chunk>, r: Result<ChunkList>): (r': Result<ChunkList>)
    ensures r.Ok? <==> r'.Ok?
    ensures r.Ok? ==> r'.value.next == r.value.next
  {
    match r
    case Fail(e) => Fail(e)
    case Ok(ChunkList(rest, p)) => Ok(ChunkList(cs + rest, p))
  }

  lemma PrependNothing(r: Result<ChunkList>)
    ensures Prepend([], r) == r
  {
    if r.Ok? {
      assert [] + r.value.chunks == r.value.chunks;
    }
  }

  lemma PrependTwice(acc: seq<Chunk>, c: Chunk, r: Result<ChunkList>)
    ensures Prepend(acc, Prepend([c], r)) == Prepend(acc + [c], r)
  {
    if r.Ok? {
      assert acc + ([c] + r.value.chunks) == acc + [c] + r.value.chunks;
    }
  }

  /** One step of `chunks()`: a chunk read at `pos` heads the rest of the list. */
  lemma ParseChunksStep(b: seq<Byte>, pos: nat)
    requires pos <= |b| && ReadChunkAt(b, pos).Ok? && ReadChunkAt(b, pos).value.chunk.Some?
    ensures ParseChunks(b, pos)
         == Prepend([ReadChunkAt(b, pos).value.chunk.value], ParseChunks(b, ReadChunkAt(b, pos).value.next))
  {
  }

  /** A leaf chunk's payload can come back short only when the stream ended
      inside it, so only the last chunk of a list can be short; container
      chunks carry a form slot and no payload, leaf chunks a payload. */
  /** The shape of a chunk list as the reader produces it. */
  predicate ListShape(cs: seq<Chunk>) {
    && (forall i :: 0 <= i < |cs| ==> (cs[i].data.Some? <==> !IsContainer(cs[i].kind)))
    && (forall i :: 0 <= i < |cs| ==> IsContainer(cs[i].kind) || cs[i].form.None?)
    && (forall i :: 0 <= i < |cs| ==> 0 <= cs[i].size)
    && (forall i :: 0 <= i < |cs| - 1 && cs[i].data.Some? ==> |cs[i].data.value| == cs[i].size)
  }

  lemma ListShapeCons(c: Chunk, rest: seq<Chunk>)
    requires ListShape(rest)
    requires c.data.Some? <==> !IsContainer(c.kind)
    requires IsContainer(c.kind) || c.form.None?
    requires 0 <= c.size
    requires rest != [] && c.data.Some? ==> |c.data.value| == c.size
    ensures ListShape([c] + rest)
  {
    var cs := [c] + rest;
    assert forall i :: 1 <= i < |cs| ==> cs[i] == rest[i - 1];
  }

  lemma {:induction false} ParsedChunksShape(b: seq<Byte>, pos: nat)
    requires pos <= |b| && ParseChunks(b, pos).Ok?
    ensures ListShape(ParseChunks(b, pos).value.chunks)
    decreases |b| - pos
  {
    var r := ReadChunkAt(b, pos);
    if r.value.chunk.Some? {
      var c := r.value.chunk.value;
      var p := r.value.next;
      ParseChunksStep(b, pos);
      ParsedChunksShape(b, p);
      ReadChunkShape(b, pos);
      var rest := ParseChunks(b, p).value.chunks;
      if c.data.Some? && |c.data.value| != c.size {
        // The payload was cut short by the end of the stream, so the next
        // read finds no tag and the list ends with `c`.
        ParseChunksAtEnd(b);
      }
      ListShapeCons(c, rest);
    }
  }

  /** What one chunk read yields: leaves carry a payload and no form,
      containers no payload; a payload comes back short only when the stream
      ends inside it. */
  lemma ReadChunkShape(b: seq<Byte>, pos: nat)
    requires pos <= |b| && ReadChunkAt(b, pos).Ok? && ReadChunkAt(b, pos).value.chunk.Some?
    ensures var c := ReadChunkAt(b, pos).value.chunk.value;
            && (c.data.Some? <==> !IsContainer(c.kind))
            && (!IsContainer(c.kind) ==> c.form.None?)
            && 0 <= c.size
            && (c.data.Some? && |c.data.value| != c.size ==> ReadChunkAt(b, pos).value.next == |b|)
  {
    var p := ParseTag(b, pos).value.next;
    assert ReadChunkAt(b, pos) == ReadBodyAt(b, ParseTag(b, pos).value.tag.value, p);
  }

  /** At the end of the stream, `chunks()` yields nothing. */
  lemma ParseChunksAtEnd(b: seq<Byte>)
    ensures ParseChunks(b, |b|) == Ok(ChunkList([], |b|))
  {
    ParseTagAtEnd(b, |b|);
    assert ReadChunkAt(b, |b|) == Ok(ChunkRead(None, |b|));
  }

  // ------------------------------------------------------------ writing

  /** What a new writer emits: the RIFF tag and a zero size placeholder. */
  function RiffPlaceholder(): (r: seq<Byte>)
    ensures |r| == 8
  {
    TagBytes(RIFF) + LE32(0)
  }

  /** The pad after a payload of length `n`: one NUL byte when `n` is odd. */
  function Pad(n: nat): (r: seq<Byte>)
    ensures |r| == n % 2
  {
    if n % 2 == 1 then NullByte else []
  }

  /** What `write` emits for a leaf chunk carrying `data`: tag, the payload's
      own length (never the chunk's `size` field), payload, pad. */
  function LeafBytes(kind: ChunkType, data: seq<Byte>): (r: seq<Byte>)
    requires |data| < 0x1_0000_0000
    ensures |r| == 8 + |data| + |data| % 2
  {
    TagBytes(kind) + SizedPayload(data)
  }

  /** What `_write_data` emits: the payload's length, the payload, its pad. */
  function SizedPayload(data: seq<Byte>): (r: seq<Byte>)
    requires |data| < 0x1_0000_0000
    ensures |r| == 4 + |data| + |data| % 2
  {
    LE32(|data|) + data + Pad(|data|)
  }

  /** Once a known tag is found at `pos`, the read goes on with the body. */
  lemma ReadAfterTag(kind: ChunkType, b: seq<Byte>, pos: nat)
    requires kind != ID3 && pos + 4 <= |b| && b[pos..pos + 4] == TagBytes(kind)
    ensures ReadChunkAt(b, pos) == ReadBodyAt(b, kind, pos + 4)
  {
    ParseTagRoundTrip(kind, b, pos);
  }

  /** A payload `d` followed by its pad reads back as `d`, ending after the pad. */
  lemma ReadLeafOf(kind: ChunkType, d: seq<Byte>, b: seq<Byte>, p: nat)
    requires |d| < 0x1_0000_0000 && p + |d| + |d| % 2 <= |b| && b[p..p + |d|] == d
    ensures ReadLeafAt(b, kind, |d|, p) == ChunkRead(Some(Chunk(kind, |d|, Some(d), None)), p + |d| + |d| % 2)
  {
    assert Take(b, p, |d|) == d;
  }

  /** Round trip of one leaf: written with payload `d`, it reads back as
      `Chunk(kind, |d|, data = d)`, with the cursor just past its pad byte. */
  lemma LeafRoundTrip(kind: ChunkType, d: seq<Byte>, b: seq<Byte>, pos: nat)
    requires !IsContainer(kind) && kind != ID3 && |d| < 0x1_0000_0000
    requires pos + 8 + |d| + |d| % 2 <= |b|
    requires b[pos..pos + 8 + |d| + |d| % 2] == LeafBytes(kind, d)
    ensures ReadChunkAt(b, pos) == Ok(ChunkRead(Some(Chunk(kind, |d|, Some(d), None)), pos + 8 + |d| + |d| % 2))
  {
    LeafBytesLayout(kind, d, b, pos);
    LeafReadBack(kind, d, b, pos);
  }

  /** The read of a leaf laid out as tag, size `|d|`, payload `d` and room for the pad. */
  lemma LeafReadBack(kind: ChunkType, d: seq<Byte>, b: seq<Byte>, pos: nat)
    requires !IsContainer(kind) && kind != ID3 && |d| < 0x1_0000_0000
    requires pos + 8 + |d| + |d| % 2 <= |b|
    requires b[pos..pos + 4] == TagBytes(kind) && b[pos + 4..pos + 8] == LE32(|d|)
    requires b[pos + 8..pos + 8 + |d|] == d
    ensures ReadChunkAt(b, pos) == Ok(ChunkRead(Some(Chunk(kind, |d|, Some(d), None)), pos + 8 + |d| + |d| % 2))
  {
    var size := U32At(b, pos + 4);
    assert size == |d| by {
      LE32Decodes(|d|, b, pos + 4);
    }
    calc {
      ReadChunkAt(b, pos);
    == { ReadAfterTag(kind, b, pos); }
      ReadBodyAt(b, kind, pos + 4);
    == { ReadBodyOfLeaf(kind, b, pos + 4); }
      Ok(ReadLeafAt(b, kind, size, pos + 8));
    == { ReadLeafOf(kind, d, b, pos + 8); }
      Ok(ChunkRead(Some(Chunk(kind, |d|, Some(d), None)), pos + 8 + |d| + |d| % 2));
    }
  }

  /** Where the parts of a written leaf sit. */
  lemma LeafBytesLayout(kind: ChunkType, d: seq<Byte>, b: seq<Byte>, pos: nat)
    requires |d| < 0x1_0000_0000
    requires pos + |LeafBytes(kind, d)| <= |b|
    requires b[pos..pos + |LeafBytes(kind, d)|] == LeafBytes(kind, d)
    ensures b[pos..pos + 4] == TagBytes(kind)
    ensures b[pos + 4..pos + 8] == LE32(|d|)
    ensures b[pos + 8..pos + 8 + |d|] == d
  {
    var t, l, p := TagBytes(kind), LE32(|d|), Pad(|d|);
    assert LeafBytes(kind, d) == t + l + d + p by {
      Regroup(t + l, d, p);
      Regroup(t, l, d + p);
      Regroup(l, d, p);
    }
    LeadingParts(b, pos, t, l, d, p);
  }

  /** After a leaf tag, the size is read and the payload follows it. */
  lemma ReadBodyOfLeaf(kind: ChunkType, b: seq<Byte>, p: nat)
    requires !IsContainer(kind) && p + 4 <= |b|
    ensures ReadBodyAt(b, kind, p) == Ok(ReadLeafAt(b, kind, U32At(b, p), p + 4))
  {
  }

  /** A container header (tag, size, form) reads back as a chunk with that
      size and form and no payload, leaving the cursor at its first child. */
  lemma ContainerRoundTrip(kind: ChunkType, size: U32, form: ChunkType, b: seq<Byte>, pos: nat)
    requires IsContainer(kind) && form != ID3
    requires pos + 12 <= |b|
    requires b[pos..pos + 4] == TagBytes(kind) && b[pos + 4..pos + 8] == LE32(size)
    requires b[pos + 8..pos + 12] == TagBytes(form)
    ensures ReadChunkAt(b, pos) == Ok(ChunkRead(Some(Chunk(kind, size, None, Some(form))), pos + 12))
  {
    ReadAfterTag(kind, b, pos);
    LE32Decodes(size, b, pos + 4);
    ParseTagRoundTrip(form, b, pos + 8);
  }

  /** A leaf chunk as the writer is given it: kind and payload. */
  datatype Leaf = Leaf(kind: ChunkType, payload: seq<Byte>)

  predicate Writable(l: Leaf) {
    !IsContainer(l.kind) && l.kind != ID3 && |l.payload| < 0x1_0000_0000
  }

  /** The bytes of several leaves written one after another. */
  function LeavesBytes(ls: seq<Leaf>): seq<Byte>
    requires forall i :: 0 <= i < |ls| ==> Writable(ls[i])
  {
    if ls == [] then []
    else
      assert Writable(ls[0]);
      LeafBytes(ls[0].kind, ls[0].payload) + LeavesBytes(ls[1..])
  }

  /** Two leaves are the bytes of the first, then those of the second. */
  lemma TwoLeaves(x: Leaf, y: Leaf)
    requires Writable(x) && Writable(y)
    ensures LeavesBytes([x, y]) == LeafBytes(x.kind, x.payload) + LeafBytes(y.kind, y.payload)
  {
    assert [x, y][1..] == [y];
    assert [y][1..] == [];
    assert LeavesBytes([y]) == LeafBytes(y.kind, y.payload) + [];
  }

  /** The chunk each written leaf reads back as. */
  function ReadBack(ls: seq<Leaf>): (cs: seq<Chunk>)
    ensures |cs| == |ls|
  {
    if ls == [] then [] else [Chunk(ls[0].kind, |ls[0].payload|, Some(ls[0].payload), None)] + ReadBack(ls[1..])
  }

  /** Two leaves read back as their two chunks. */
  lemma ReadBackTwo(x: Leaf, y: Leaf)
    ensures ReadBack([x, y]) == [Chunk(x.kind, |x.payload|, Some(x.payload), None), Chunk(y.kind, |y.payload|, Some(y.payload), None)]
  {
    assert [x, y][1..] == [y];
    assert [y][1..] == [];
  }

  /** Round trip of a whole chunk sequence: leaves written back to back up to
      the end of the stream are listed by `chunks()` in order, each as
      `Chunk(kind, len(payload), payload)`, and the list ends at the end. */
  lemma LeavesRoundTrip(ls: seq<Leaf>, b: seq<Byte>, pos: nat)
    requires forall i :: 0 <= i < |ls| ==> Writable(ls[i])
    requires pos <= |b| && b[pos..] == LeavesBytes(ls)
    ensures ParseChunks(b, pos) == Ok(ChunkList(ReadBack(ls), |b|))
  {
    LeavesReadBack(ls, b, pos);
  }

  /** The leaves `ls` are written from `pos` to the end of `b`. */
  ghost predicate LeavesAt(ls: seq<Leaf>, b: seq<Byte>, pos: nat) {
    && (forall i :: 0 <= i < |ls| ==> Writable(ls[i]))
    && pos <= |b| && b[pos..] == LeavesBytes(ls)
  }

  /** `chunks()` from `pos` lists what the leaves `ls` read back as. */
  ghost predicate ListedAt(ls: seq<Leaf>, b: seq<Byte>, pos: nat) {
    pos <= |b| && ParseChunks(b, pos) == Ok(ChunkList(ReadBack(ls), |b|))
  }

  lemma {:induction false} LeavesReadBack(ls: seq<Leaf>, b: seq<Byte>, pos: nat)
    requires LeavesAt(ls, b, pos)
    ensures ListedAt(ls, b, pos)
    decreases ls
  {
    if ls == [] {
      ParseChunksAtEnd(b);
    } else {
      var next := FirstLeaf(ls, b, pos);
      LeavesReadBack(ls[1..], b, next);
      FirstLeafListed(ls, b, pos, next);
    }
  }

  /** Splits the first leaf off: it spans `pos` to `next`, the rest follow. */
  lemma FirstLeaf(ls: seq<Leaf>, b: seq<Byte>, pos: nat) returns (next: nat)
    requires ls != [] && LeavesAt(ls, b, pos)
    ensures Writable(ls[0]) && next == pos + 8 + |ls[0].payload| + |ls[0].payload| % 2 <= |b|
    ensures b[pos..next] == LeafBytes(ls[0].kind, ls[0].payload) && LeavesAt(ls[1..], b, next)
  {
    var kind, d, tail := ls[0].kind, ls[0].payload, ls[1..];
    TailWritable(ls);
    LeavesBytesFirst(ls);
    next := pos + 8 + |d| + |d| % 2;
    SplitSuffix(b, pos, LeafBytes(kind, d), LeavesBytes(tail));
  }

  lemma TailWritable(ls: seq<Leaf>)
    requires ls != [] && forall i :: 0 <= i < |ls| ==> Writable(ls[i])
    ensures Writable(ls[0]) && forall i :: 0 <= i < |ls[1..]| ==> Writable(ls[1..][i])
  {
    forall i | 0 <= i < |ls[1..]| ensures Writable(ls[1..][i]) {
      assert ls[1..][i] == ls[i + 1];
    }
  }

  lemma LeavesBytesFirst(ls: seq<Leaf>)
    requires ls != [] && Writable(ls[0]) && forall i :: 0 <= i < |ls[1..]| ==> Writable(ls[1..][i])
    requires forall i :: 0 <= i < |ls| ==> Writable(ls[i])
    ensures LeavesBytes(ls) == LeafBytes(ls[0].kind, ls[0].payload) + LeavesBytes(ls[1..])
  {
  }

  /** The first leaf's chunk goes in front of what the rest read back as. */
  lemma FirstLeafListed(ls: seq<Leaf>, b: seq<Byte>, pos: nat, next: nat)
    requires ls != [] && Writable(ls[0]) && next == pos + 8 + |ls[0].payload| + |ls[0].payload| % 2 <= |b|
    requires b[pos..next] == LeafBytes(ls[0].kind, ls[0].payload) && ListedAt(ls[1..], b, next)
    ensures ListedAt(ls, b, pos)
  {
    var kind, d := ls[0].kind, ls[0].payload;
    LeafThenList(kind, d, b, pos, next, ReadBack(ls[1..]));
  }

  /** A leaf written at `pos`, followed by bytes where a list `cs` is read, is
      read as that list with the leaf's chunk in front. */
  lemma LeafThenList(kind: ChunkType, d: seq<Byte>, b: seq<Byte>, pos: nat, next: nat, cs: seq<Chunk>)
    requires !IsContainer(kind) && kind != ID3 && |d| < 0x1_0000_0000
    requires next == pos + 8 + |d| + |d| % 2 <= |b| && b[pos..next] == LeafBytes(kind, d)
    requires ParseChunks(b, next) == Ok(ChunkList(cs, |b|))
    ensures ParseChunks(b, pos) == Ok(ChunkList([Chunk(kind, |d|, Some(d), None)] + cs, |b|))
  {
    var c := Chunk(kind, |d|, Some(d), None);
    assert ReadChunkAt(b, pos) == Ok(ChunkRead(Some(c), next)) by {
      LeafRoundTrip(kind, d, b, pos);
    }
    ChunkThenRest(b, pos, c, next, cs);
  }

  /** A chunk read at `pos`, then a list read from where it ends, is the
      list read at `pos` with the chunk in front. */
  lemma ChunkThenRest(b: seq<Byte>, pos: nat, c: Chunk, next: nat, cs: seq<Chunk>)
    requires pos <= next <= |b| && ReadChunkAt(b, pos) == Ok(ChunkRead(Some(c), next))
    requires ParseChunks(b, next) == Ok(ChunkList(cs, |b|))
    ensures ParseChunks(b, pos) == Ok(ChunkList([c] + cs, |b|))
  {
    ParseChunksStep(b, pos);
  }

  // ------------------------------------------------------------ the interface

  /** `RiffInterface`: one stream, in writer or reader mode. A reader also
      keeps the header chunk it read on construction. */
  class RiffInterface {
    const stream: Stream
    const isWriter: bool
    var header: Option<Chunk>

    /** The writer constructor: `RIFF` and a zero size placeholder at the cursor. */
    constructor Writer(s: Stream)
      requires s.Valid()
      modifies s
      ensures stream == s && isWriter && header.None?
      ensures s.Valid()
      ensures s.data == Overwrite(old(s.data), old(s.pos), RiffPlaceholder()) && s.pos == old(s.pos) + 8
    {
      stream := s;
      isWriter := true;
      header := None;
      new;
      ToStream(RIFF, s);
      var ok := WriteSize(0, None);
      OverwriteTwice(old(s.data), old(s.pos), TagBytes(RIFF), LE32(0));
    }

    constructor Open(s: Stream, writer: bool)
      ensures stream == s && isWriter == writer && header.None?
    {
      stream := s;
      isWriter := writer;
      header := None;
    }

    /** The reader constructor: read one chunk, which must exist and be a RIFF
        chunk. Its form is not checked. */
    static method Reader(s: Stream) returns (r: Result<RiffInterface>)
      requires s.Valid()
      modifies s
      ensures s.Valid() && s.data == old(s.data)
      ensures var h := ReadChunkAt(old(s.data), old(s.pos));
              && (h.Fail? ==> r == Fail(h.error))
              && (h.Ok? && h.value.chunk.None? ==> r == Fail(MissingHeader))
              && (h.Ok? && h.value.chunk.Some? && h.value.chunk.value.kind != RIFF ==> r == Fail(NotRiff))
              && (h.Ok? && h.value.chunk.Some? && h.value.chunk.value.kind == RIFF ==>
                    r.Ok? && fresh(r.value) && r.value.stream == s && !r.value.isWriter &&
                    r.value.header == h.value.chunk && s.pos == h.value.next)
    {
      var riff := new RiffInterface.Open(s, false);
      var h := riff.Read();
      if h.Fail? {
        return Fail(h.error);
      }
      if h.value.None? {
        return Fail(MissingHeader);
      }
      if h.value.value.kind != RIFF {
        return Fail(NotRiff);
      }
      riff.header := h.value;
      r := Ok(riff);
    }

    /** `read_size`: a little-endian u32; a short read is an error. */
    method ReadSize() returns (r: Result<U32>)
      requires stream.Valid()
      modifies stream
      ensures stream.Valid() && stream.data == old(stream.data)
      ensures old(stream.pos) + 4 <= |stream.data| ==>
                r == Ok(U32At(stream.data, old(stream.pos))) && stream.pos == old(stream.pos) + 4
      ensures old(stream.pos) + 4 > |stream.data| ==> r == Fail(ShortSize)
    {
      var raw := stream.Read(4);
      if |raw| < 4 {
        return Fail(ShortSize);
      }
      r := Ok(U32At(raw, 0));
    }

    /** `read`: the next chunk, or None when no tag is left. */
    method Read() returns (r: Result<Option<Chunk>>)
      requires stream.Valid()
      modifies stream
      ensures stream.Valid() && stream.data == old(stream.data)
      ensures r == ChunkOf(ReadChunkAt(old(stream.data), old(stream.pos)))
      ensures r.Ok? ==> stream.pos == ReadChunkAt(old(stream.data), old(stream.pos)).value.next
    {
      var kind := FromStream(stream);
      if kind.Fail? {
        return Fail(kind.error);
      }
      if kind.value.None? {
        return Ok(None);
      }
      var k := kind.value.value;
      var size := ReadSize();
      if size.Fail? {
        return Fail(size.error);
      }
      if !IsContainer(k) {
        var data := stream.Read(size.value);
        if size.value % 2 == 1 {
          var pad := stream.Read(1);
        }
        r := Ok(Some(Chunk(k, size.value, Some(data), None)));
      } else {
        var form := FromStream(stream);
        if form.Fail? {
          return Fail(form.error);
        }
        r := Ok(Some(Chunk(k, size.value, None, form.value)));
      }
    }

    /** `list(chunks())`: every chunk up to the first read that yields None. */
    method Chunks() returns (r: Result<seq<Chunk>>)
      requires stream.Valid()
      modifies stream
      ensures stream.Valid() && stream.data == old(stream.data)
      ensures var l := ParseChunks(old(stream.data), old(stream.pos));
              && (l.Fail? ==> r == Fail(l.error))
              && (l.Ok? ==> r == Ok(l.value.chunks) && stream.pos == l.value.next)
    {
      ghost var b := stream.data;
      ghost var start := stream.pos;
      ghost var prev: nat := stream.pos;
      var acc: seq<Chunk> := [];
      var c := Read();
      PrependNothing(ParseChunks(b, prev));
      while c.Ok? && c.value.Some?
        invariant stream.Valid() && stream.data == b && prev <= |b|
        invariant c == ChunkOf(ReadChunkAt(b, prev))
        invariant c.Ok? ==> stream.pos == ReadChunkAt(b, prev).value.next
        invariant ParseChunks(b, start) == Prepend(acc, ParseChunks(b, prev))
        decreases if c.Ok? && c.value.Some? then |b| - stream.pos + 1 else 0
      {
        ParseChunksStep(b, prev);
        PrependTwice(acc, c.value.value, ParseChunks(b, stream.pos));
        acc := acc + [c.value.value];
        prev := stream.pos;
        c := Read();
      }
      if c.Fail? {
        return Fail(c.error);
      }
      assert acc + [] == acc;
      r := Ok(acc);
    }

    /** `write_size`: a u32 at the cursor, or at `seek` when given; a size
        outside [0, 2^32) fails before anything moves. */
    method WriteSize(size: int, seek: Option<nat>) returns (ok: bool)
      requires stream.Valid()
      requires seek.Some? ==> seek.value <= |stream.data|
      modifies stream
      ensures stream.Valid()
      ensures ok <==> 0 <= size < 0x1_0000_0000
      ensures !ok ==> stream.data == old(stream.data) && stream.pos == old(stream.pos)
      ensures ok ==> var at := if seek.Some? then seek.value else old(stream.pos);
                     stream.data == Overwrite(old(stream.data), at, LE32(size)) && stream.pos == at + 4
    {
      if !(0 <= size < 0x1_0000_0000) {
        return false;
      }
      if seek.Some? {
        stream.Seek(seek.value);
      }
      stream.Write(LE32(size));
      ok := true;
    }

    /** `_write_data`: the payload's length, the payload, and a NUL pad byte
        when the length is odd. */
    method WriteData(data: seq<Byte>) returns (ok: bool)
      requires stream.Valid()
      modifies stream
      ensures stream.Valid()
      ensures ok <==> |data| < 0x1_0000_0000
      ensures !ok ==> stream.data == old(stream.data) && stream.pos == old(stream.pos)
      ensures ok ==> stream.data == Overwrite(old(stream.data), old(stream.pos), SizedPayload(data))
                     && stream.pos == old(stream.pos) + 4 + |data| + |data| % 2
    {
      var size := |data|;
      ok := WriteSize(size, None);
      if !ok {
        return;
      }
      stream.Write(data);
      OverwriteTwice(old(stream.data), old(stream.pos), LE32(size), data);
      if size % 2 == 1 {
        stream.Write(NullByte);
        OverwriteTwice(old(stream.data), old(stream.pos), LE32(size) + data, NullByte);
      } else {
        assert LE32(size) + data + Pad(size) == LE32(size) + data;
      }
    }

    /** `write`: writer mode and a leaf kind are required; the tag is always
        written, the size and payload only when the chunk carries data. */
    method Write(chunk: Chunk) returns (r: Result<()>)
      requires stream.Valid()
      modifies stream
      ensures stream.Valid()
      ensures !isWriter ==> r == Fail(NotWriter) && stream.data == old(stream.data) && stream.pos == old(stream.pos)
      ensures isWriter && IsContainer(chunk.kind) ==>
                r == Fail(ContainerWrite) && stream.data == old(stream.data) && stream.pos == old(stream.pos)
      ensures isWriter && !IsContainer(chunk.kind) && chunk.data.None? ==>
                r == Ok(()) &&
                stream.data == Overwrite(old(stream.data), old(stream.pos), TagBytes(chunk.kind)) &&
                stream.pos == old(stream.pos) + 4
      ensures isWriter && !IsContainer(chunk.kind) && chunk.data.Some? && |chunk.data.value| >= 0x1_0000_0000 ==>
                r == Fail(SizeOutOfRange) &&
                stream.data == Overwrite(old(stream.data), old(stream.pos), TagBytes(chunk.kind)) &&
                stream.pos == old(stream.pos) + 4
      ensures isWriter && !IsContainer(chunk.kind) && chunk.data.Some? && |chunk.data.value| < 0x1_0000_0000 ==>
                r == Ok(()) &&
                stream.data == Overwrite(old(stream.data), old(stream.pos), LeafBytes(chunk.kind, chunk.data.value)) &&
                stream.pos == old(stream.pos) + |LeafBytes(chunk.kind, chunk.data.value)|
    {
      if !isWriter {
        return Fail(NotWriter);
      }
      if IsContainer(chunk.kind) {
        return Fail(ContainerWrite);
      }
      ToStream(chunk.kind, stream);
      r := Ok(());
      if chunk.data.Some? {
        var d := chunk.data.value;
        var ok := WriteData(d);
        if !ok {
          return Fail(SizeOutOfRange);
        }
        OverwriteTwice(old(stream.data), old(stream.pos), TagBytes(chunk.kind), SizedPayload(d));
      }
    }

    /** `finalize`. A writer patches bytes 4..8 with the total length minus 8
        and leaves the cursor after them; a reader consumes whatever is left
        and reports how many bytes that was (the source only logs a warning). */
    method Finalize() returns (r: Result<nat>)
      requires stream.Valid()
      modifies stream
      ensures stream.Valid()
      ensures isWriter && 8 <= |old(stream.data)| < 0x1_0000_0008 ==>
                r == Ok(0) &&
                stream.data == Overwrite(old(stream.data), 4, LE32(|old(stream.data)| - 8)) &&
                stream.pos == 8
      ensures isWriter && !(8 <= |old(stream.data)| < 0x1_0000_0008) ==>
                r == Fail(SizeOutOfRange) && stream.data == old(stream.data)
      ensures !isWriter ==>
                r == Ok(|old(stream.data)| - old(stream.pos)) &&
                stream.data == old(stream.data) && stream.pos == |stream.data|
    {
      if isWriter {
        stream.SeekEnd();
        var size := stream.Tell() - 8;
        var ok := WriteSize(size, if |stream.data| >= 4 then Some(4) else None);
        r := if ok then Ok(0) else Fail(SizeOutOfRange);
      } else {
        var remaining := stream.ReadAll();
        r := Ok(|remaining|);
      }
    }
  }

  /** After `finalize`, a writer's size field holds the length of everything
      after it: bytes 4..8 decode to the total length minus 8, and nothing
      else changed. */
  lemma FinalizedSizeField(b: seq<Byte>)
    requires 8 <= |b| < 0x1_0000_0008
    ensures var f := Overwrite(b, 4, LE32(|b| - 8));
            && |f| == |b| && U32At(f, 4) == |f| - 8
            && f[..4] == b[..4] && f[8..] == b[8..]
  {
    var f := Overwrite(b, 4, LE32(|b| - 8));
    LE32Decodes(|b| - 8, f, 4);
  }
}
