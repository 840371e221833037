/** A seekable byte stream: the `BinaryIO` the RIFF interface writes to and
    reads from (a file opened "wb"/"rb", or a `BytesIO`), kept in memory as the
    whole byte content plus a cursor. */
module Streams {
  import opened Bytes

  /** The bytes `read(n)` returns at cursor `pos`: at most `n`, fewer at the end. */
  function Take(b: seq<Byte>, pos: nat, n: nat): (r: seq<Byte>)
    requires pos <= |b|
    ensures |r| == Min(n, |b| - pos)
    ensures r == b[pos..pos + |r|]
  {
    b[pos..Min(pos + n, |b|)]
  }

  /** The content after `write(w)` at cursor `pos`: `w` replaces the bytes it
      covers and extends the content past its old end. */
  function Overwrite(b: seq<Byte>, pos: nat, w: seq<Byte>): (r: seq<Byte>)
    requires pos <= |b|
    ensures |r| == Max(|b|, pos + |w|)
    ensures r[..pos] == b[..pos] && r[pos..pos + |w|] == w
    ensures forall i :: pos + |w| <= i < |b| ==> r[i] == b[i]
  {
    if pos + |w| <= |b| then b[..pos] + w + b[pos + |w|..] else b[..pos] + w
  }

  lemma OverwriteAtEnd(b: seq<Byte>, w: seq<Byte>)
    ensures Overwrite(b, |b|, w) == b + w
  {
  }

  lemma OverwriteTwice(b: seq<Byte>, pos: nat, w1: seq<Byte>, w2: seq<Byte>)
    requires pos <= |b|
    ensures Overwrite(Overwrite(b, pos, w1), pos + |w1|, w2) == Overwrite(b, pos, w1 + w2)
  {
    var once := Overwrite(Overwrite(b, pos, w1), pos + |w1|, w2);
    var both := Overwrite(b, pos, w1 + w2);
    assert |once| == |both|;
    forall i | 0 <= i < |once| ensures once[i] == both[i] {
      if i < pos {
        assert once[..pos][i] == both[..pos][i];
      } else if i < pos + |w1| {
        assert once[pos..pos + |w1|][i - pos] == w1[i - pos];
        assert both[pos..pos + |w1| + |w2|][i - pos] == (w1 + w2)[i - pos];
      } else if i < pos + |w1| + |w2| {
        assert once[pos + |w1|..pos + |w1| + |w2|][i - pos - |w1|] == w2[i - pos - |w1|];
        assert both[pos..pos + |w1| + |w2|][i - pos] == (w1 + w2)[i - pos];
      }
    }
  }

  class Stream {
    var data: seq<Byte>
    var pos: nat

    ghost predicate Valid()
      reads this
    {
      pos <= |data|
    }

    /** A stream over `init`, positioned at its start (`BytesIO(init)`, or an
        empty file opened for writing when `init` is empty). */
    constructor (init: seq<Byte>)
      ensures Valid() && data == init && pos == 0
    {
      data := init;
      pos := 0;
    }

    function Tell(): nat
      reads this
    {
      pos
    }

    method Read(n: nat) returns (r: seq<Byte>)
      requires Valid()
      modifies this
      ensures Valid() && data == old(data)
      ensures r == Take(old(data), old(pos), n) && pos == old(pos) + |r|
    {
      r := Take(data, pos, n);
      pos := pos + |r|;
    }

    /** `read()` with no size: everything from the cursor to the end. */
    method ReadAll() returns (r: seq<Byte>)
      requires Valid()
      modifies this
      ensures Valid() && data == old(data)
      ensures r == old(data)[old(pos)..] && pos == |data|
    {
      r := data[pos..];
      pos := |data|;
    }

    method Write(w: seq<Byte>)
      requires Valid()
      modifies this
      ensures Valid()
      ensures data == Overwrite(old(data), old(pos), w) && pos == old(pos) + |w|
    {
      data := Overwrite(data, pos, w);
      pos := pos + |w|;
    }

    method Seek(p: nat)
      requires p <= |data|
      modifies this
      ensures Valid() && data == old(data) && pos == p
    {
      pos := p;
    }

    /** `seek(0, os.SEEK_END)`. */
    method SeekEnd()
      modifies this
      ensures Valid() && data == old(data) && pos == |data|
    {
      pos := |data|;
    }
  }
}
