/** Fixed-width little-endian integers and ASCII text, the two encodings the
    RIFF/WAVE layers are built from. The Python code gets these from runtimepy's
    `Uint32`/`Int16` primitives with `ByteOrder.LITTLE_ENDIAN` and from
    `str.encode("ascii")`; here they are plain functions with their inverses. */
module Bytes {

  type Byte = b: int | 0 <= b < 0x100
  type U16 = x: int | 0 <= x < 0x1_0000
  type U32 = x: int | 0 <= x < 0x1_0000_0000
  type I16 = x: int | -0x8000 <= x < 0x8000

  function Min(a: int, b: int): int { if a <= b then a else b }
  function Max(a: int, b: int): int { if a <= b then b else a }

  /** Concatenation regrouped to the right. */
  lemma Regroup<T>(a: seq<T>, b: seq<T>, c: seq<T>)
    ensures a + b + c == a + (b + c)
  {
  }

  /** A slice of a slice is a slice of the original. */
  lemma SliceOfSlice<T>(b: seq<T>, pos: nat, n: nat, i: nat, j: nat)
    requires pos + n <= |b| && i <= j <= n
    ensures b[pos..pos + n][i..j] == b[pos + i..pos + j]
  {
    var inner := b[pos..pos + n][i..j];
    forall k | 0 <= k < |inner| ensures inner[k] == b[pos + i..pos + j][k] {
      assert inner[k] == b[pos + i + k];
    }
  }

  /** Where the first three parts of a concatenation sit in a slice that
      holds it. */
  lemma LeadingParts<T>(b: seq<T>, pos: nat, x: seq<T>, y: seq<T>, z: seq<T>, w: seq<T>)
    requires pos + |x| + |y| + |z| + |w| <= |b|
    requires b[pos..pos + |x| + |y| + |z| + |w|] == x + y + z + w
    ensures b[pos..pos + |x|] == x
    ensures b[pos + |x|..pos + |x| + |y|] == y
    ensures b[pos + |x| + |y|..pos + |x| + |y| + |z|] == z
  {
    var n := |x| + |y| + |z| + |w|;
    var v := b[pos..pos + n];
    SliceOfSlice(b, pos, n, 0, |x|);
    SliceOfSlice(b, pos, n, |x|, |x| + |y|);
    SliceOfSlice(b, pos, n, |x| + |y|, |x| + |y| + |z|);
    assert v[..|x|] == x;
    assert v[|x|..|x| + |y|] == y;
    assert v[|x| + |y|..|x| + |y| + |z|] == z;
  }

  /** A suffix that is a concatenation splits into two slices. */
  lemma SplitSuffix<T>(b: seq<T>, pos: nat, x: seq<T>, y: seq<T>)
    requires pos <= |b| && b[pos..] == x + y
    ensures b[pos..pos + |x|] == x && b[pos + |x|..] == y
  {
    assert b[pos..pos + |x|] == b[pos..][..|x|];
    assert b[pos + |x|..] == b[pos..][|x|..];
  }

  // ---------------------------------------------------------------- unsigned

  /** The two bytes of `x`, least significant first. */
  function LE16(x: U16): (r: seq<Byte>)
    ensures |r| == 2
  {
    [x % 0x100, x / 0x100]
  }

  /** The unsigned 16-bit value stored little-endian at `b[i..i+2]`. */
  function U16At(b: seq<Byte>, i: nat): U16
    requires i + 2 <= |b|
  {
    (b[i] as int) + 0x100 * (b[i + 1] as int)
  }

  /** The four bytes of `x`, least significant first. */
  function LE32(x: U32): (r: seq<Byte>)
    ensures |r| == 4
  {
    [x % 0x100, (x / 0x100) % 0x100, (x / 0x1_0000) % 0x100, x / 0x100_0000]
  }

  /** The unsigned 32-bit value stored little-endian at `b[i..i+4]`. */
  function U32At(b: seq<Byte>, i: nat): U32
    requires i + 4 <= |b|
  {
    (b[i] as int) + 0x100 * (b[i + 1] as int) + 0x1_0000 * (b[i + 2] as int) + 0x100_0000 * (b[i + 3] as int)
  }

  lemma LE16Decodes(x: U16, b: seq<Byte>, i: nat)
    requires i + 2 <= |b| && b[i..i + 2] == LE16(x)
    ensures U16At(b, i) == x
  {
    assert b[i] == LE16(x)[0] && b[i + 1] == LE16(x)[1];
  }

  lemma U16AtEncodes(b: seq<Byte>, i: nat)
    requires i + 2 <= |b|
    ensures LE16(U16At(b, i)) == b[i..i + 2]
  {
  }

  lemma LE32Decodes(x: U32, b: seq<Byte>, i: nat)
    requires i + 4 <= |b| && b[i..i + 4] == LE32(x)
    ensures U32At(b, i) == x
  {
    assert b[i] == LE32(x)[0] && b[i + 1] == LE32(x)[1];
    assert b[i + 2] == LE32(x)[2] && b[i + 3] == LE32(x)[3];
    var q1 := x / 0x100;
    var q2 := q1 / 0x100;
    assert x == x % 0x100 + 0x100 * q1;
    assert q1 == q1 % 0x100 + 0x100 * q2;
    assert q2 == q2 % 0x100 + 0x100 * (q2 / 0x100);
    assert x / 0x1_0000 == q2;
    assert x / 0x100_0000 == q2 / 0x100;
  }

  lemma U32AtEncodes(b: seq<Byte>, i: nat)
    requires i + 4 <= |b|
    ensures LE32(U32At(b, i)) == b[i..i + 4]
  {
    var x := U32At(b, i);
    var lo := (b[i] as int) + 0x100 * (b[i + 1] as int) + 0x1_0000 * (b[i + 2] as int);
    assert 0 <= lo < 0x100_0000;
    assert x / 0x100_0000 == b[i + 3];
    assert x / 0x1_0000 == (b[i + 2] as int) + 0x100 * (b[i + 3] as int);
    assert x / 0x100 == (b[i + 1] as int) + 0x100 * (b[i + 2] as int) + 0x1_0000 * (b[i + 3] as int);
  }

  // ---------------------------------------------------------------- signed

  /** Two's-complement little-endian encoding of a signed 16-bit value. */
  function EncodeI16(v: I16): (r: seq<Byte>)
    ensures |r| == 2
  {
    LE16(if v < 0 then v + 0x1_0000 else v)
  }

  /** The signed 16-bit value stored two's-complement little-endian at `b[i..i+2]`. */
  function I16At(b: seq<Byte>, i: nat): I16
    requires i + 2 <= |b|
  {
    var u := U16At(b, i);
    if u >= 0x8000 then u - 0x1_0000 else u
  }

  lemma EncodeI16Decodes(v: I16, b: seq<Byte>, i: nat)
    requires i + 2 <= |b| && b[i..i + 2] == EncodeI16(v)
    ensures I16At(b, i) == v
  {
    LE16Decodes(if v < 0 then v + 0x1_0000 else v, b, i);
  }

  /** The low 16 bits of any integer, as two's-complement little-endian bytes. */
  function EncodeLow16(v: int): (r: seq<Byte>)
    ensures |r| == 2
    ensures -0x8000 <= v < 0x8000 ==> r == EncodeI16(v)
  {
    LE16(v % 0x1_0000)
  }

  /** Every value of a sequence of signed 16-bit points, encoded in order. */
  function EncodeI16s(points: seq<I16>): (r: seq<Byte>)
    ensures |r| == 2 * |points|
  {
    if points == [] then [] else EncodeI16(points[0]) + EncodeI16s(points[1..])
  }

  lemma {:induction false} EncodeI16sAppend(a: seq<I16>, b: seq<I16>)
    ensures EncodeI16s(a + b) == EncodeI16s(a) + EncodeI16s(b)
  {
    if a == [] {
      assert a + b == b;
    } else {
      assert (a + b)[1..] == a[1..] + b;
      EncodeI16sAppend(a[1..], b);
    }
  }

  /** Point `j` of an encoded sequence sits at bytes `2j..2j+2`. */
  lemma {:induction false} EncodeI16sAt(points: seq<I16>, j: nat)
    requires j < |points|
    ensures EncodeI16s(points)[2 * j..2 * j + 2] == EncodeI16(points[j])
  {
    if j > 0 {
      EncodeI16sAt(points[1..], j - 1);
      AfterPrefix(EncodeI16(points[0]), EncodeI16s(points[1..]), 2 * j, 2 * j + 2);
    }
  }

  /** A slice lying wholly past a prefix is a slice of what follows it. */
  lemma AfterPrefix<T>(h: seq<T>, t: seq<T>, i: nat, j: nat)
    requires |h| <= i <= j <= |h| + |t|
    ensures (h + t)[i..j] == t[i - |h|..j - |h|]
  {
    forall k | 0 <= k < j - i ensures (h + t)[i..j][k] == t[i - |h|..j - |h|][k] {
      assert (h + t)[i..j][k] == (h + t)[i + k];
    }
  }

  // ---------------------------------------------------------------- ASCII

  predicate IsAscii(s: string) {
    forall i :: 0 <= i < |s| ==> s[i] as int < 0x80
  }

  predicate IsAsciiBytes(b: seq<Byte>) {
    forall i :: 0 <= i < |b| ==> b[i] < 0x80
  }

  /** `s.encode("ascii")`. */
  function AsciiBytes(s: string): (r: seq<Byte>)
    requires IsAscii(s)
    ensures |r| == |s| && IsAsciiBytes(r)
    ensures forall i :: 0 <= i < |s| ==> r[i] == s[i] as int
  {
    if s == [] then [] else [s[0] as int] + AsciiBytes(s[1..])
  }

  /** `b.decode("ascii")`, defined when every byte is below 0x80. */
  function AsciiText(b: seq<Byte>): (s: string)
    requires IsAsciiBytes(b)
    ensures |s| == |b| && IsAscii(s)
    ensures forall i :: 0 <= i < |b| ==> s[i] as int == b[i]
  {
    if b == [] then [] else [b[0] as char] + AsciiText(b[1..])
  }

  lemma AsciiRoundTrip(s: string)
    requires IsAscii(s)
    ensures AsciiText(AsciiBytes(s)) == s
  {
    var t := AsciiText(AsciiBytes(s));
    assert forall i :: 0 <= i < |s| ==> t[i] == s[i];
  }

  lemma AsciiTextRoundTrip(b: seq<Byte>)
    requires IsAsciiBytes(b)
    ensures AsciiBytes(AsciiText(b)) == b
  {
    var r := AsciiBytes(AsciiText(b));
    assert forall i :: 0 <= i < |b| ==> r[i] == b[i];
  }
}
