/** The WAVE enumerations (quasimoto/enums/wave.py): the data format, the
    channel/width class, the oscillator wave shapes, and the byte order of the
    WAVE protocol. Each enumeration is a datatype with its integer value and
    the lookup from an integer back to a member. */
module WaveEnums {
  import opened Outcomes

  /** `WaveType`: the only data format is PCM. */
  datatype WaveType = PCM

  function WaveTypeValue(t: WaveType): (v: int)
    ensures v == 1
  {
    match t
    case PCM => 1
  }

  function WaveTypeOf(v: int): (r: Option<WaveType>)
    ensures r.Some? <==> v == 1
  {
    if v == 1 then Some(PCM) else None
  }

  /** `WaveClass`: bytes per sample tuple (channels times bytes per sample). */
  datatype WaveClass = Mono8 | Stereo8 | Stereo16

  function WaveClassValue(c: WaveClass): int {
    match c
    case Mono8 => 1
    case Stereo8 => 2
    case Stereo16 => 4
  }

  function WaveClassOf(v: int): (r: Option<WaveClass>)
    ensures r.Some? <==> v in {1, 2, 4}
  {
    if v == 1 then Some(Mono8)
    else if v == 2 then Some(Stereo8)
    else if v == 4 then Some(Stereo16)
    else None
  }

  /** `WaveShape`: the four oscillator shapes, numbered 1 to 4. */
  datatype WaveShape = Sine | Triangle | Square | Sawtooth

  function ShapeValue(s: WaveShape): (v: int)
    ensures 1 <= v <= 4
  {
    match s
    case Sine => 1
    case Triangle => 2
    case Square => 3
    case Sawtooth => 4
  }

  function ShapeOf(v: int): (r: Option<WaveShape>)
    ensures r.Some? <==> 1 <= v <= 4
  {
    if v == 1 then Some(Sine)
    else if v == 2 then Some(Triangle)
    else if v == 3 then Some(Square)
    else if v == 4 then Some(Sawtooth)
    else None
  }

  /** Each enumeration's value and lookup are inverse to each other. */
  lemma EnumValuesRoundTrip(t: WaveType, c: WaveClass, s: WaveShape)
    ensures WaveTypeOf(WaveTypeValue(t)) == Some(t)
    ensures WaveClassOf(WaveClassValue(c)) == Some(c)
    ensures ShapeOf(ShapeValue(s)) == Some(s)
  {
  }

  lemma EnumLookupsRoundTrip(v: int)
    ensures WaveTypeOf(v).Some? ==> WaveTypeValue(WaveTypeOf(v).value) == v
    ensures WaveClassOf(v).Some? ==> WaveClassValue(WaveClassOf(v).value) == v
    ensures ShapeOf(v).Some? ==> ShapeValue(ShapeOf(v).value) == v
  {
  }

  /** The members' integer values are pairwise distinct. */
  lemma ShapeValueInjective(s: WaveShape, t: WaveShape)
    requires ShapeValue(s) == ShapeValue(t)
    ensures s == t
  {
  }

  datatype ByteOrder = LittleEndian | BigEndian

  /** `BYTE_ORDER`: every WAVE protocol field is little-endian; the codec's
      fixed-width encoders (module Bytes) are the little-endian ones. */
  const WaveByteOrder: ByteOrder := LittleEndian
}
