/** The sound-source interface (quasimoto/sampler/source.py): a source on a
    time keeper, built from `SourceParameters`, that can be switched on and
    off by events, stops once the clock reaches its stop time, and can be
    sampled ahead on a copy of the clock.

    `value(now)` is abstract in the interface; a concrete source is given
    here by its value function `voice`. Copying is abstract as well
    (`__copy__`); the model's copy is a new source of the same kind on the
    same time keeper carrying the same fields. */
module Sources {
  import opened Reals
  import opened Outcomes
  import opened Bytes
  import opened WaveEnums
  import opened TimeKeepers
  import opened Frequencies
  import opened Parameters
  import WaveWriters
  import WaveFiles

  /** What `sample_for` hands to its handler, in order: pull `k` happens at
      `PullTime(t0, period, k)` on the copied clock, and a pull at or past
      the stop time raises StopIteration, which ends the whole call. */
  function SamplesFrom(voice: real -> int, stop: Option<real>, t0: real, period: real, n: nat): (r: Result<seq<int>>)
    ensures r.Ok? ==> |r.value| == n
    ensures r.Fail? ==> r.error == Exhausted
  {
    if n == 0 then Ok([])
    else
      match SamplesFrom(voice, stop, t0, period, n - 1)
      case Fail(e) => Fail(e)
      case Ok(xs) =>
        var t := PullTime(t0, period, n - 1);
        if PastStop(stop, t) then Fail(Exhausted) else Ok(xs + [voice(t)])
  }

  /** Sample `k` is the value at `k` periods after the start. */
  lemma {:induction false} SamplesAt(voice: real -> int, stop: Option<real>, t0: real, period: real, n: nat, k: nat)
    requires k < n && SamplesFrom(voice, stop, t0, period, n).Ok?
    ensures SamplesFrom(voice, stop, t0, period, n).value[k] == voice(t0 + k as real * period)
  {
    if k < n - 1 {
      SamplesAt(voice, stop, t0, period, n - 1, k);
    } else {
      var prev := SamplesFrom(voice, stop, t0, period, n - 1);
      var t := PullTime(t0, period, n - 1);
      assert prev.Ok? && !PastStop(stop, t);
      assert SamplesFrom(voice, stop, t0, period, n) == Ok(prev.value + [voice(t)]);
      assert k == n - 1 && |prev.value| == k;
      PullTimeIs(t0, period, k);
    }
  }

  /** One more pull after `i` of them. */
  lemma SamplesStep(voice: real -> int, stop: Option<real>, t0: real, period: real, i: nat, xs: seq<int>)
    requires SamplesFrom(voice, stop, t0, period, i) == Ok(xs)
    ensures var t := PullTime(t0, period, i);
            && (PastStop(stop, t) ==> SamplesFrom(voice, stop, t0, period, i + 1) == Fail(Exhausted))
            && (!PastStop(stop, t) ==> SamplesFrom(voice, stop, t0, period, i + 1) == Ok(xs + [voice(t)]))
  {
  }

  /** Once a pull has stopped the sampling, asking for more samples stops
      it too. */
  lemma {:induction false} SamplesFailPersist(voice: real -> int, stop: Option<real>, t0: real, period: real, m: nat, n: nat)
    requires m <= n && SamplesFrom(voice, stop, t0, period, m).Fail?
    ensures SamplesFrom(voice, stop, t0, period, n).Fail?
  {
    if m < n {
      SamplesFailPersist(voice, stop, t0, period, m, n - 1);
    }
  }

  /** With time moving forward, sampling delivers all `n` values exactly
      when the last pull is still before the stop time. */
  lemma SamplesComplete(voice: real -> int, stop: Option<real>, t0: real, period: real, n: nat)
    requires period > 0.0
    ensures SamplesFrom(voice, stop, t0, period, n).Ok?
        <==> n == 0 || !PastStop(stop, t0 + (n - 1) as real * period)
  {
    SamplesCompleteAt(voice, stop, t0, period, n);
    if n > 0 {
      PullTimeIs(t0, period, n - 1);
    }
  }

  /** `SamplesComplete` with the last pull time left as `PullTime`. */
  lemma {:induction false} SamplesCompleteAt(voice: real -> int, stop: Option<real>, t0: real, period: real, n: nat)
    requires period > 0.0
    ensures SamplesFrom(voice, stop, t0, period, n).Ok?
        <==> n == 0 || !PastStop(stop, PullTime(t0, period, n - 1))
  {
    if n > 1 {
      SamplesCompleteAt(voice, stop, t0, period, n - 1);
      assert PullTime(t0, period, n - 2) < PullTime(t0, period, n - 1);
    }
  }

  /** The frames `to_wave` writes: each sample on both channels. */
  function Duplicated(xs: seq<I16>): (r: seq<seq<I16>>)
    ensures |r| == |xs|
  {
    seq(|xs|, k requires 0 <= k < |xs| => [xs[k], xs[k]])
  }

  /** Every sample fits a signed 16-bit field. */
  predicate Fits(xs: seq<int>) {
    forall k :: 0 <= k < |xs| ==> -0x8000 <= xs[k] < 0x8000
  }

  function AsI16s(xs: seq<int>): (r: seq<I16>)
    requires Fits(xs)
    ensures r == xs
  {
    seq(|xs|, k requires 0 <= k < |xs| => xs[k] as I16)
  }

  class Source {
    const keeper: TimeKeeper
    const params: SourceParameters
    /** The concrete source's `value(now)`. */
    const voice: real -> int
    var frequency: real
    var shape: WaveShape
    var stopTime: Option<real>
    var enabled: bool
    var amplitude: real
    var proportion: real

    /** `SourceInterface(time_keeper, params)`: frequency, shape, enabled and
        amplitude from the parameters; the stop time from the parameters
        unless a duration is given, which sets it that long after the
        clock's current time. */
    constructor (keeper: TimeKeeper, params: SourceParameters, voice: real -> int)
      ensures this.keeper == keeper && this.params == params && this.voice == voice
      ensures frequency == params.frequency && shape == params.shape
      ensures stopTime == if params.duration.Some? then Some(keeper.time + params.duration.value) else params.stopTime
      ensures enabled == params.enabled && amplitude == params.amplitude && proportion == 0.0
    {
      this.keeper := keeper;
      this.params := params;
      this.voice := voice;
      this.frequency := params.frequency;
      this.shape := params.shape;
      this.proportion := 0.0;
      this.enabled := false;
      this.stopTime := params.stopTime;
      new;
      SetDuration(params.duration);
      enabled := params.enabled;
      amplitude := params.amplitude;
    }

    /** `set_duration(duration)`: a given duration sets the stop time that
        long after the clock's current time; none leaves it. */
    method SetDuration(duration: Option<real>)
      modifies this
      ensures stopTime == if duration.Some? then Some(keeper.time + duration.value) else old(stopTime)
      ensures frequency == old(frequency) && shape == old(shape) && enabled == old(enabled)
      ensures amplitude == old(amplitude) && proportion == old(proportion)
    {
      if duration.Some? {
        stopTime := Some(keeper.time + duration.value);
      }
    }

    /** `enable_event(time)`: switches the source on, whatever the time. */
    method EnableEvent(time: real)
      modifies this
      ensures enabled
      ensures frequency == old(frequency) && shape == old(shape) && stopTime == old(stopTime)
      ensures amplitude == old(amplitude) && proportion == old(proportion)
    {
      enabled := true;
    }

    /** `disable_event(time)`: switches the source off, whatever the time. */
    method DisableEvent(time: real)
      modifies this
      ensures !enabled
      ensures frequency == old(frequency) && shape == old(shape) && stopTime == old(stopTime)
      ensures amplitude == old(amplitude) && proportion == old(proportion)
    {
      enabled := false;
    }

    /** `__next__`: exhausted exactly when a stop time is set and the clock
        has reached it; otherwise the value at the clock's time. Reading it
        leaves the clock alone. */
    function Next(): (r: Result<int>)
      reads this, keeper
      ensures r.Fail? <==> PastStop(stopTime, keeper.time)
      ensures r.Fail? ==> r.error == Exhausted
      ensures r.Ok? ==> r.value == voice(keeper.time)
    {
      if PastStop(stopTime, keeper.time) then Fail(Exhausted) else Ok(voice(keeper.time))
    }

    /** `copy()`. */
    method Copy() returns (s: Source)
      ensures fresh(s) && s.keeper == keeper && s.params == params && s.voice == voice
      ensures s.frequency == frequency && s.shape == shape && s.stopTime == stopTime
      ensures s.enabled == enabled && s.amplitude == amplitude && s.proportion == proportion
    {
      s := new Source(keeper, params, voice);
      s.frequency, s.shape, s.stopTime := frequency, shape, stopTime;
      s.enabled, s.amplitude, s.proportion := enabled, amplitude, proportion;
    }

    /** `clone(harmonic, stop_time)`: a copy whose stop time is replaced
        when one is given and whose frequency is moved to the given
        harmonic. */
    method Clone(harmonic: Option<int>, stopTime: Option<real>) returns (s: Source)
      ensures fresh(s) && s.keeper == keeper && s.params == params && s.voice == voice
      ensures s.stopTime == if stopTime.Some? then stopTime else this.stopTime
      ensures s.frequency == if harmonic.Some? then Harmonic(frequency, harmonic.value) else frequency
      ensures s.shape == shape && s.enabled == enabled && s.amplitude == amplitude
      ensures s.proportion == proportion
    {
      s := Copy();
      if stopTime.Some? {
        s.stopTime := stopTime;
      }
      if harmonic.Some? {
        s.frequency := Harmonic(s.frequency, harmonic.value);
      }
    }

    /** `create(time_keeper, data)`: parameters from the data, or `DEFAULT`
        when there is none; data naming an unknown shape fails. */
    static method Create(keeper: TimeKeeper, data: Option<ParamData>, voice: real -> int)
      returns (r: Result<Source>)
      ensures data.None? ==> r.Ok? && r.value.params == Default
      ensures data.Some? ==> (r.Fail? <==> FromDict(data.value).Fail?)
      ensures data.Some? && r.Fail? ==> r.error == UnknownShape
      ensures data.Some? && r.Ok? ==> r.value.params == FromDict(data.value).value
      ensures r.Ok? ==> fresh(r.value) && r.value.keeper == keeper && r.value.voice == voice
      ensures r.Ok? ==>
                r.value.stopTime == (if r.value.params.duration.Some? then Some(keeper.time + r.value.params.duration.value)
                                     else r.value.params.stopTime)
    {
      var params := Default;
      if data.Some? {
        var parsed := FromDict(data.value);
        if parsed.Fail? {
          return Fail(parsed.error);
        }
        params := parsed.value;
      }
      var s := new Source(keeper, params, voice);
      r := Ok(s);
    }

    /** `sample_for(duration, handler)`: the values handed to the handler,
        `num_samples(duration)` pulls on a copy of the clock advanced after
        each one, so the source's own clock does not move. */
    method SampleFor(duration: real) returns (r: Result<seq<int>>)
      requires keeper.Valid()
      ensures var n := NumSamples(duration, keeper.sampleRate);
              r == SamplesFrom(voice, stopTime, keeper.time, keeper.period, if n > 0 then n else 0)
    {
      var t0, period, stop := keeper.time, keeper.period, stopTime;
      var clock := keeper.Copy();
      var n := NumSamples(duration, clock.sampleRate);
      var count: nat := if n > 0 then n else 0;
      var xs: seq<int> := [];
      var i := 0;
      while i < count
        invariant fresh(clock) && clock.Valid() && clock.period == period
        invariant 0 <= i <= count
        invariant clock.time == PullTime(t0, period, i)
        invariant SamplesFrom(voice, stop, t0, period, i) == Ok(xs)
      {
        var now := clock.time;
        SamplesStep(voice, stop, t0, period, i, xs);
        if PastStop(stop, now) {
          SamplesFailPersist(voice, stop, t0, period, i + 1, count);
          return Fail(Exhausted);
        }
        xs := xs + [voice(now)];
        clock.Advance();
        i := i + 1;
      }
      r := Ok(xs);
    }

    /** `to_wave(path, duration)`: the samples written as a stereo WAVE file
        with the writer's defaults, each sample on both channels. Reading the
        file back gives those frames. */
    method ToWave(duration: real) returns (r: Result<seq<Byte>>)
      requires keeper.Valid()
      ensures var n := NumSamples(duration, keeper.sampleRate);
              var xs := SamplesFrom(voice, stopTime, keeper.time, keeper.period, if n > 0 then n else 0);
              && (xs.Fail? ==> r == Fail(xs.error))
              && (xs.Ok? && !Fits(xs.value) ==> r == Fail(SampleOutOfRange))
              && (xs.Ok? && Fits(xs.value) && 36 + 4 * |xs.value| < 0x1_0000_0000 ==>
                    r.Ok? && WaveFiles.ReadWave(r.value).Ok?
                    && WaveFiles.ReadWave(r.value).value.samples == Duplicated(AsI16s(xs.value)))
    {
      var xs := SampleFor(duration);
      if xs.Fail? {
        return Fail(xs.error);
      }
      if !Fits(xs.value) {
        return Fail(SampleOutOfRange);
      }
      var frames := Duplicated(AsI16s(xs.value));
      assert forall k :: 0 <= k < |frames| ==> |frames[k]| == 2;
      WaveWriters.FlattenLength(frames, 2);
      WaveWriters.DefaultFormat();
      r := WaveFiles.WriteWaveFile(2, 44100, 16, frames);
      if 36 + 4 * |xs.value| < 0x1_0000_0000 {
        WaveFiles.WaveRoundTrip(2, 44100, frames);
      }
    }

    /** `next_shape()`. */
    method NextShape()
      modifies this
      ensures shape == Frequencies.NextShape(old(shape))
      ensures frequency == old(frequency) && stopTime == old(stopTime) && enabled == old(enabled)
      ensures amplitude == old(amplitude) && proportion == old(proportion)
    {
      shape := Frequencies.NextShape(shape);
    }
  }
}
