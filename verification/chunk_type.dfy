/** RIFF chunk tags (quasimoto/enums/__init__.py): the six known four-character
    codes, which of them are containers, and how a tag is read from and written
    to a stream. */
module ChunkTypes {
  import opened Bytes
  import opened Outcomes
  import opened Streams

  datatype ChunkType = RIFF | LIST | WAVE | FMT | DATA | ID3

  /** The enum member's string value. */
  function Tag(t: ChunkType): (s: string)
    ensures |s| == 4 && IsAscii(s)
  {
    match t
    case RIFF => "RIFF"
    case LIST => "LIST"
    case WAVE => "WAVE"
    case FMT => "fmt "
    case DATA => "data"
    case ID3 => "ID3 "
  }

  /** `ChunkType(s)`: the member whose value is `s`, if any. */
  function TagOf(s: string): (r: Option<ChunkType>)
    ensures r.Some? ==> Tag(r.value) == s
  {
    if |s| != 4 then None
    else if s[0] == 'R' && s[1] == 'I' && s[2] == 'F' && s[3] == 'F' then Some(RIFF)
    else if s[0] == 'L' && s[1] == 'I' && s[2] == 'S' && s[3] == 'T' then Some(LIST)
    else if s[0] == 'W' && s[1] == 'A' && s[2] == 'V' && s[3] == 'E' then Some(WAVE)
    else if s[0] == 'f' && s[1] == 'm' && s[2] == 't' && s[3] == ' ' then Some(FMT)
    else if s[0] == 'd' && s[1] == 'a' && s[2] == 't' && s[3] == 'a' then Some(DATA)
    else if s[0] == 'I' && s[1] == 'D' && s[2] == '3' && s[3] == ' ' then Some(ID3)
    else None
  }

  lemma TagOfTag(t: ChunkType)
    ensures TagOf(Tag(t)) == Some(t)
  {
  }

  /** The `is_container` property. */
  predicate IsContainer(t: ChunkType) {
    t == RIFF || t == LIST
  }

  lemma ContainersAreRiffAndList(t: ChunkType)
    ensures IsContainer(t) <==> Tag(t) in {"RIFF", "LIST"}
  {
  }

  /** What `to_stream` writes: the tag's four ASCII bytes. */
  function TagBytes(t: ChunkType): (r: seq<Byte>)
    ensures |r| == 4 && IsAsciiBytes(r)
  {
    AsciiBytes(Tag(t))
  }

  lemma TagBytesInjective(s: ChunkType, t: ChunkType)
    requires TagBytes(s) == TagBytes(t)
    ensures s == t
  {
    AsciiRoundTrip(Tag(s));
    AsciiRoundTrip(Tag(t));
    TagOfTag(s);
    TagOfTag(t);
  }

  /** The tag `from_stream` found (None: no more chunks) and the cursor after it. */
  datatype TagRead = TagRead(tag: Option<ChunkType>, next: nat)

  /** What `from_stream` does at cursor `pos` of `b`: read up to three bytes and
      decode them as ASCII; fewer than three, or exactly "ID3", means no tag;
      otherwise read one more byte and look the four characters up. */
  function ParseTag(b: seq<Byte>, pos: nat): (r: Result<TagRead>)
    requires pos <= |b|
    ensures r.Ok? ==> pos <= r.value.next <= |b|
    ensures r.Ok? && r.value.tag.Some? ==> r.value.next == pos + 4 && r.value.tag.value != ID3
  {
    var three := Take(b, pos, 3);
    var pos1 := pos + |three|;
    if !IsAsciiBytes(three) then Fail(NotAscii)
    else if |three| < 3 then Ok(TagRead(None, pos1))
    else if AsciiText(three) == "ID3" then Ok(TagRead(None, pos1))
    else
      var four := Take(b, pos1, 1);
      if !IsAsciiBytes(four) then Fail(NotAscii)
      else
        match TagOf(AsciiText(three) + AsciiText(four))
        case None => Fail(UnknownTag)
        case Some(t) =>
          NotId3(AsciiText(three), AsciiText(four));
          Ok(TagRead(Some(t), pos1 + |four|))
  }

  /** Text whose first three characters are not "ID3" names another member
      than ID3. */
  lemma NotId3(three: string, four: string)
    requires |three| == 3 && three != "ID3"
    ensures TagOf(three + four) != Some(ID3)
  {
    assert three[0] == 'I' && three[1] == 'D' && three[2] == '3' ==> three == "ID3";
  }

  /** Fewer than three bytes left (all ASCII): no tag, and those bytes are consumed. */
  lemma ParseTagAtEnd(b: seq<Byte>, pos: nat)
    requires pos <= |b| < pos + 3 && IsAsciiBytes(b[pos..])
    ensures ParseTag(b, pos) == Ok(TagRead(None, |b|))
  {
    assert Take(b, pos, 3) == b[pos..];
  }

  /** The ID3 heuristic: "ID3" consumes exactly three bytes and yields no tag,
      so the member ID3 is never produced. */
  lemma ParseTagId3(b: seq<Byte>, pos: nat)
    requires pos + 3 <= |b| && b[pos..pos + 3] == AsciiBytes("ID3")
    ensures ParseTag(b, pos) == Ok(TagRead(None, pos + 3))
  {
    AsciiRoundTrip("ID3");
    assert Take(b, pos, 3) == AsciiBytes("ID3");
  }

  /** A three-byte ASCII tail other than "ID3" is an error: the fourth read
      returns nothing and a three-character string names no member. */
  lemma ParseTagThreeByteTail(b: seq<Byte>, pos: nat)
    requires pos + 3 == |b| && IsAsciiBytes(b[pos..]) && b[pos..] != AsciiBytes("ID3")
    ensures ParseTag(b, pos) == Fail(UnknownTag)
  {
    var three := Take(b, pos, 3);
    assert three == b[pos..];
    AsciiRoundTrip("ID3");
    AsciiTextRoundTrip(three);
    assert Take(b, pos + 3, 1) == [];
    assert AsciiText([]) == "";
    assert |AsciiText(three) + AsciiText([])| == 3;
  }

  /** Round trip: the bytes `to_stream(t)` writes are read back as `t`, for
      every tag except ID3, whatever follows them. */
  lemma ParseTagRoundTrip(t: ChunkType, b: seq<Byte>, pos: nat)
    requires t != ID3
    requires pos + 4 <= |b| && b[pos..pos + 4] == TagBytes(t)
    ensures ParseTag(b, pos) == Ok(TagRead(Some(t), pos + 4))
  {
    var three := Take(b, pos, 3);
    var four := Take(b, pos + 3, 1);
    assert three == TagBytes(t)[..3] && four == TagBytes(t)[3..];
    TagHalves(t, three, four);
    TagPrefix(t);
    TagOfTag(t);
  }

  /** The first three and the last byte of a tag decode to the first three
      and the last character. */
  lemma TagHalves(t: ChunkType, three: seq<Byte>, four: seq<Byte>)
    requires three == TagBytes(t)[..3] && four == TagBytes(t)[3..]
    ensures IsAsciiBytes(three) && IsAsciiBytes(four)
    ensures AsciiText(three) == Tag(t)[..3] && AsciiText(four) == Tag(t)[3..]
  {
    var tag := Tag(t);
    assert forall i :: 0 <= i < 3 ==> three[i] == tag[i] as int;
    assert four[0] == tag[3] as int;
    assert forall i :: 0 <= i < 3 ==> AsciiText(three)[i] == tag[i];
    assert AsciiText(four)[0] == tag[3];
  }

  /** Only the ID3 tag starts with "ID3". */
  lemma TagPrefix(t: ChunkType)
    requires t != ID3
    ensures Tag(t)[..3] != "ID3" && Tag(t)[..3] + Tag(t)[3..] == Tag(t)
  {
    assert Tag(t)[..3][0] != "ID3"[0];
  }

  /** `ChunkType.from_stream`. */
  method FromStream(s: Stream) returns (r: Result<Option<ChunkType>>)
    requires s.Valid()
    modifies s
    ensures s.Valid() && s.data == old(s.data)
    ensures ParseTag(old(s.data), old(s.pos)).Fail? ==> r == Fail(ParseTag(old(s.data), old(s.pos)).error)
    ensures ParseTag(old(s.data), old(s.pos)).Ok? ==>
              r == Ok(ParseTag(old(s.data), old(s.pos)).value.tag) &&
              s.pos == ParseTag(old(s.data), old(s.pos)).value.next
  {
    var three := s.Read(3);
    if !IsAsciiBytes(three) {
      return Fail(NotAscii);
    }
    var check := AsciiText(three);
    if |check| == 3 && check != "ID3" {
      var four := s.Read(1);
      if !IsAsciiBytes(four) {
        return Fail(NotAscii);
      }
      r := match TagOf(check + AsciiText(four))
        case None => Fail(UnknownTag)
        case Some(t) => Ok(Some(t));
    } else {
      r := Ok(None);
    }
  }

  /** `ChunkType.to_stream`: the four tag bytes, written at the cursor. */
  method ToStream(t: ChunkType, s: Stream)
    requires s.Valid()
    modifies s
    ensures s.Valid()
    ensures s.data == Overwrite(old(s.data), old(s.pos), TagBytes(t)) && s.pos == old(s.pos) + 4
  {
    var data := AsciiBytes(Tag(t));
    assert |data| == 4;
    s.Write(data);
  }
}
