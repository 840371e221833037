/** The RIFF chunk record (quasimoto/riff/chunk.py): an immutable value of
    kind, size, optional payload and optional form tag, with its display text. */
module Chunks {
  import opened Bytes
  import opened Outcomes
  import opened ChunkTypes

  /** `data` and `form` default to None, as in the NamedTuple. */
  datatype Chunk = Chunk(kind: ChunkType, size: int,
                         data: Option<seq<Byte>> := None,
                         form: Option<ChunkType> := None)

  /** `NULL_BYTE`: the one byte written after an odd-length payload. */
  const NullByte: seq<Byte> := [0]

  /** Decimal digits of a natural number, most significant first. */
  function NatDigits(n: nat): (s: string)
    ensures |s| >= 1
    ensures forall i :: 0 <= i < |s| ==> '0' <= s[i] <= '9'
    decreases n
  {
    if n < 10 then [('0' as int + n) as char]
    else NatDigits(n / 10) + [('0' as int + n % 10) as char]
  }

  /** The value of a string of decimal digits. */
  function DigitsValue(s: string): int
    requires forall i :: 0 <= i < |s| ==> '0' <= s[i] <= '9'
  {
    if s == [] then 0 else 10 * DigitsValue(s[..|s| - 1]) + (s[|s| - 1] as int - '0' as int)
  }

  /** `NatDigits` writes `n` itself: reading the digits back gives `n`. */
  lemma {:induction false} NatDigitsValue(n: nat)
    ensures DigitsValue(NatDigits(n)) == n
  {
    if n >= 10 {
      var s := NatDigits(n);
      assert s[..|s| - 1] == NatDigits(n / 10);
      NatDigitsValue(n / 10);
    }
  }

  /** Python's `str(i)` for an int: decimal, with a leading '-' when negative. */
  function IntText(i: int): (s: string)
    ensures i >= 0 ==> s == NatDigits(i)
    ensures i < 0 ==> s == "-" + NatDigits(-i)
  {
    if i < 0 then "-" + NatDigits(-i) else NatDigits(i)
  }

  /** `Chunk.__str__`. */
  function ChunkText(c: Chunk): string {
    var head := "'" + Tag(c.kind) + "' size=" + IntText(c.size);
    match c.form
    case None => head
    case Some(f) => head + " (form='" + Tag(f) + "')"
  }

  /** The text always starts with the quoted kind and the decimal size, and
      the form suffix is present exactly when a form is. */
  lemma ChunkTextShape(c: Chunk)
    ensures var head := "'" + Tag(c.kind) + "' size=" + IntText(c.size);
            && |ChunkText(c)| >= |head|
            && ChunkText(c)[..|head|] == head
            && (c.form.None? <==> ChunkText(c) == head)
            && (c.form.Some? ==> ChunkText(c)[|head|..] == " (form='" + Tag(c.form.value) + "')")
  {
  }
}
