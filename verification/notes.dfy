/** Musical notes (quasimoto/sampler/notes.py): twelve-tone equal
    temperament above a root frequency. Note index 0 is the root; each index
    up multiplies the frequency by the twelfth root of two, so twelve indices
    (one octave) double it.

    The twelfth root of two is irrational, so it is a parameter here: any
    positive `semitone` whose twelfth power is two (`IsSemitone`). */
module Notes {
  import opened Reals
  import opened Outcomes

  /** `DIVISIONS`: semitones per octave. */
  const Divisions: int := 12
  /** `ROOT_FREQUENCY`: the frequency of note index 0. */
  const RootFrequency: real := 8.175799
  /** `OCTAVE_BASE`: octave offset 0 is five octaves above the root. */
  const OctaveBase: int := 5

  /** What `TWELVE_TONE_EQUAL`, `2 ** (1 / 12)`, is. */
  ghost predicate IsSemitone(s: real) {
    s > 0.0 && Pow(s, 12) == 2.0
  }

  /** `note_by_index(index)`: the index must not be negative. */
  function NoteByIndex(index: int, semitone: real): (r: Result<real>)
    ensures r.Fail? <==> index < 0
    ensures r.Fail? ==> r.error == NegativeIndex
    ensures r.Ok? && semitone > 0.0 ==> r.value > 0.0
  {
    if index < 0 then Fail(NegativeIndex)
    else
      PowPositiveWhenAbove(semitone, index);
      Ok(Pow(semitone, index) * RootFrequency)
  }

  lemma PowPositiveWhenAbove(s: real, n: nat)
    ensures s > 0.0 ==> Pow(s, n) * RootFrequency > 0.0
  {
    if s > 0.0 {
      PowPositive(s, n);
      MulPositive(Pow(s, n), RootFrequency);
    }
  }

  /** One index up is one semitone up. */
  lemma SemitoneStep(index: nat, semitone: real)
    ensures NoteByIndex(index + 1, semitone).value == semitone * NoteByIndex(index, semitone).value
  {
    Associate(semitone, Pow(semitone, index), RootFrequency);
  }

  /** Twelve indices up is twice the frequency. */
  lemma OctaveStep(index: nat, semitone: real)
    requires IsSemitone(semitone)
    ensures NoteByIndex(index + 12, semitone).value == 2.0 * NoteByIndex(index, semitone).value
  {
    PowAdd(semitone, 12, index);
    Associate(2.0, Pow(semitone, index), RootFrequency);
  }

  /** `o` octaves up multiplies the power by `2 ** o`. */
  lemma {:induction false} OctavePower(semitone: real, k: nat, o: nat)
    requires IsSemitone(semitone)
    ensures Pow(semitone, k + 12 * o) == Pow(semitone, k) * Exp2(o) as real
  {
    if o > 0 {
      OctavePower(semitone, k, o - 1);
      PowAdd(semitone, 12, k + 12 * (o - 1));
      assert k + 12 * o == 12 + (k + 12 * (o - 1));
      Associate(2.0, Pow(semitone, k), Exp2(o - 1) as real);
    }
  }

  /** The twelve pitch classes. The source's flat names are aliases of the
      sharps: `DB` is `CS`, and so on. */
  datatype Note = C | CS | D | DS | E | F | FS | G | GS | A | AS | B

  const DB: Note := CS
  const EB: Note := DS
  const GB: Note := FS
  const AB: Note := GS
  const BB: Note := AS

  function NoteValue(n: Note): (v: int)
    ensures 0 <= v < Divisions
  {
    match n
    case C => 0 case CS => 1 case D => 2 case DS => 3
    case E => 4 case F => 5 case FS => 6 case G => 7
    case GS => 8 case A => 9 case AS => 10 case B => 11
  }

  /** `Note(value)` for a value in range. */
  function NoteOf(v: int): (n: Note)
    requires 0 <= v < Divisions
    ensures NoteValue(n) == v
  {
    if v == 0 then C else if v == 1 then CS else if v == 2 then D
    else if v == 3 then DS else if v == 4 then E else if v == 5 then F
    else if v == 6 then FS else if v == 7 then G else if v == 8 then GS
    else if v == 9 then A else if v == 10 then AS else B
  }

  lemma NoteOfValue(n: Note)
    ensures NoteOf(NoteValue(n)) == n
  {
  }

  /** The index `Note.frequency(octave_offset)` looks up. */
  function NoteIndex(n: Note, octave: int): (i: int)
    ensures i >= 0 <==> octave >= -OctaveBase
    ensures i % Divisions == NoteValue(n)
  {
    Divisions * (octave + OctaveBase) + NoteValue(n)
  }

  /** `Note.frequency(octave_offset)`: fails below the root's octave. */
  function Frequency(n: Note, octave: int, semitone: real): (r: Result<real>)
    ensures r.Fail? <==> octave < -OctaveBase
  {
    NoteByIndex(NoteIndex(n, octave), semitone)
  }

  /** `Note.from_index(index)`: the pitch class is the index modulo twelve
      and the octave offset the floored quotient less the base. For a positive
      divisor the floored and the Euclidean quotient and remainder agree, so
      negative indices behave as in Python. */
  function FromIndex(index: int): (r: (Note, int))
  {
    (NoteOf(index % Divisions), index / Divisions - OctaveBase)
  }

  /** Looking a note up by its index gives back the index. */
  lemma FromIndexThenIndex(index: int)
    ensures NoteIndex(FromIndex(index).0, FromIndex(index).1) == index
  {
  }

  /** Taking a note and octave to an index and back gives them back. */
  lemma IndexThenFromIndex(n: Note, octave: int)
    ensures FromIndex(NoteIndex(n, octave)) == (n, octave)
  {
    var i := NoteIndex(n, octave);
    assert i == Divisions * (octave + OctaveBase) + NoteValue(n);
    assert i / Divisions == octave + OctaveBase;
    NoteOfValue(n);
  }

  /** One octave up doubles a note's frequency. */
  lemma OctaveDoubles(n: Note, octave: int, semitone: real)
    requires IsSemitone(semitone) && octave >= -OctaveBase
    ensures Frequency(n, octave + 1, semitone).value == 2.0 * Frequency(n, octave, semitone).value
  {
    assert NoteIndex(n, octave + 1) == NoteIndex(n, octave) + 12;
    OctaveStep(NoteIndex(n, octave), semitone);
  }

  /** `DEFAULT_FREQUENCY`: middle C, `C.frequency()`, index 60, five octaves
      above the root: 32 times 8.175799. */
  const DefaultFrequency: real := 261.625568

  lemma DefaultFrequencyIsMiddleC(semitone: real)
    requires IsSemitone(semitone)
    ensures Frequency(C, 0, semitone) == Ok(DefaultFrequency)
  {
    OctavePower(semitone, 0, 5);
    assert Exp2(5) == 32;
  }
}
