/** Source creation parameters (quasimoto/sampler/parameters.py): a record
    of optional stop time and duration, frequency, amplitude, wave shape and
    whether the source starts enabled, with constructors from keyword data,
    from a note and from a note index. */
module Parameters {
  import opened Reals
  import opened Outcomes
  import opened WaveEnums
  import opened Notes

  /** `DEFAULT_AMPLITUDE`. */
  const DefaultAmplitude: real := 1.0
  /** `DEFAULT_SHAPE`. */
  const DefaultShape: WaveShape := Sine

  /** `SourceParameters`. */
  datatype SourceParameters = SourceParameters(
    stopTime: Option<real>,
    duration: Option<real>,
    frequency: real,
    amplitude: real,
    shape: WaveShape,
    enabled: bool)

  /** `DEFAULT`: every field at its default. */
  const Default: SourceParameters :=
    SourceParameters(None, None, DefaultFrequency, DefaultAmplitude, DefaultShape, true)

  /** The exhaustion test of `__next__` for a stop time: a source or sampler
      stops once a stop time is set and the clock has reached it. */
  predicate PastStop(stopTime: Option<real>, time: real) {
    stopTime.Some? && time >= stopTime.value
  }

  /** Keyword data as `from_dict` reads it: each key present or absent. A
      shape is given by its integer value. */
  datatype ParamData = ParamData(
    stopTime: Option<real>,
    duration: Option<real>,
    frequency: Option<real>,
    amplitude: Option<real>,
    shape: Option<int>,
    enabled: Option<bool>)

  /** Data with no keys at all. */
  const NoData: ParamData := ParamData(None, None, None, None, None, None)

  function GetOr<T>(o: Option<T>, default: T): T {
    if o.Some? then o.value else default
  }

  /** `WaveShape.normalize` of an integer value. */
  function NormalizeShape(v: int): (r: Result<WaveShape>)
    ensures r.Ok? <==> ShapeOf(v).Some?
    ensures r.Ok? ==> ShapeValue(r.value) == v
    ensures r.Fail? ==> r.error == UnknownShape
  {
    match ShapeOf(v)
    case None => Fail(UnknownShape)
    case Some(s) => Ok(s)
  }

  /** `SourceParameters.from_dict(data)`: absent keys take their defaults;
      the `enabled` key is not read, so the result is always enabled. */
  function FromDict(data: ParamData): (r: Result<SourceParameters>)
    ensures r.Fail? <==> data.shape.Some? && ShapeOf(data.shape.value).None?
    ensures r.Fail? ==> r.error == UnknownShape
    ensures r.Ok? ==>
              && r.value.stopTime == data.stopTime && r.value.duration == data.duration
              && r.value.frequency == GetOr(data.frequency, DefaultFrequency)
              && r.value.amplitude == GetOr(data.amplitude, DefaultAmplitude)
              && ShapeValue(r.value.shape) == GetOr(data.shape, ShapeValue(DefaultShape))
              && r.value.enabled
  {
    var shape := if data.shape.Some? then NormalizeShape(data.shape.value) else Ok(DefaultShape);
    match shape
    case Fail(e) => Fail(e)
    case Ok(s) =>
      Ok(SourceParameters(
        data.stopTime,
        data.duration,
        GetOr(data.frequency, DefaultFrequency),
        GetOr(data.amplitude, DefaultAmplitude),
        s,
        true))
  }

  /** The data that spells every field of `p` out. */
  function ToDict(p: SourceParameters): ParamData {
    ParamData(p.stopTime, p.duration, Some(p.frequency), Some(p.amplitude), Some(ShapeValue(p.shape)), Some(p.enabled))
  }

  /** Reading back spelled-out parameters gives them back, except that a
      disabled source comes back enabled. */
  lemma FromDictToDict(p: SourceParameters)
    ensures FromDict(ToDict(p)) == Ok(p.(enabled := true))
  {
    EnumValuesRoundTrip(PCM, Mono8, p.shape);
  }

  /** Empty data gives `DEFAULT`. */
  lemma FromEmptyDict()
    ensures FromDict(NoData) == Ok(Default)
  {
  }

  /** `SourceParameters.from_note(note, octave_offset, **kwargs)`: the note's
      frequency replaces any frequency among the keywords. */
  function FromNote(n: Note, octave: int, kwargs: ParamData, semitone: real): (r: Result<SourceParameters>)
    ensures Frequency(n, octave, semitone).Fail? ==> r == Fail(NegativeIndex)
    ensures Frequency(n, octave, semitone).Ok? ==>
              r == FromDict(kwargs.(frequency := Some(Frequency(n, octave, semitone).value)))
  {
    match Frequency(n, octave, semitone)
    case Fail(e) => Fail(e)
    case Ok(f) => FromDict(kwargs.(frequency := Some(f)))
  }

  /** `SourceParameters.from_index(index, **kwargs)`. */
  function FromIndexParams(index: int, kwargs: ParamData, semitone: real): (r: Result<SourceParameters>)
  {
    var (n, octave) := FromIndex(index);
    FromNote(n, octave, kwargs, semitone)
  }

  /** Parameters from an index succeed exactly for a non-negative index and
      a known shape, and carry the frequency of that index whatever frequency
      the keywords held; the other keywords pass through as in `from_dict`. */
  lemma FromIndexFrequency(index: int, kwargs: ParamData, semitone: real)
    ensures var r := FromIndexParams(index, kwargs, semitone);
            && (r.Ok? <==> index >= 0 && (kwargs.shape.Some? ==> ShapeOf(kwargs.shape.value).Some?))
            && (index < 0 ==> r == Fail(NegativeIndex))
            && (r.Ok? ==> r.value.frequency == NoteByIndex(index, semitone).value
                          && r.value == FromDict(kwargs.(frequency := None)).value.(frequency := r.value.frequency))
  {
    FromIndexThenIndex(index);
  }

  /** Middle C with no keywords is `DEFAULT`. */
  lemma MiddleCIsDefault(semitone: real)
    requires IsSemitone(semitone)
    ensures FromNote(C, 0, NoData, semitone) == Ok(Default)
  {
    DefaultFrequencyIsMiddleC(semitone);
  }
}
