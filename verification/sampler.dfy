/** The sampler (quasimoto/sampler/__init__.py): an oscillator tied to a
    time keeper. Each `__next__` reads the keeper's time and, unless past its
    stop time, returns the current waveform value scaled to a signed integer
    of `num_bits` bits. It never moves the clock. */
module Samplers {
  import opened Reals
  import opened Outcomes
  import opened WaveEnums
  import opened TimeKeepers
  import opened Frequencies
  import opened Parameters
  import WaveWriters

  /** `scalar`: the largest value of a signed, zero-centred sample of
      `numBits` bits, `2 ** (numBits - 1) - 1`. */
  function Scalar(numBits: int): (r: real)
    ensures numBits >= 1 ==> r >= 0.0 && r == (Exp2(numBits - 1) - 1) as real
  {
    Pow2(numBits - 1) - 1.0
  }

  /** With the writer's default of 16 bits the full scale is 32767. */
  lemma DefaultScalar()
    ensures Scalar(WaveWriters.DefaultBits) == 32767.0
  {
    assert Exp2(15) == 32768;
  }

  /** `int(scalar * amplitude * wave)`: the scaled waveform value, truncated
      toward zero. */
  function SampleOf(scalar: real, amplitude: real, wave: real): (r: int)
  {
    Trunc(scalar * amplitude * wave)
  }

  /** A sample never exceeds full scale while the amplitude and the waveform
      stay within [-1, 1]. */
  lemma SampleBounded(scalar: real, amplitude: real, wave: real)
    ensures scalar >= 0.0 && Abs(amplitude) <= 1.0 && Abs(wave) <= 1.0 ==>
              Abs(SampleOf(scalar, amplitude, wave) as real) <= scalar
  {
    if scalar >= 0.0 && Abs(amplitude) <= 1.0 && Abs(wave) <= 1.0 {
      var x := scalar * amplitude * wave;
      assert Abs(x) <= scalar by {
        ScaledAtMost(scalar, amplitude, scalar * amplitude);
        ScaledAtMost(scalar * amplitude, wave, x);
      }
      TruncAtMost(x, scalar);
    }
  }

  lemma TruncAtMost(x: real, b: real)
    requires Abs(x) <= b
    ensures Abs(Trunc(x) as real) <= b
  {
    TruncTowardZero(x);
  }

  /** Multiplying by a factor within [-1, 1] does not grow the magnitude. */
  lemma ScaledAtMost(a: real, k: real, ak: real)
    requires ak == a * k && Abs(k) <= 1.0
    ensures Abs(ak) <= Abs(a)
  {
    AbsProduct(a, k);
    AtMostOne(Abs(a), Abs(k));
  }

  lemma AbsProduct(a: real, b: real)
    ensures Abs(a * b) == Abs(a) * Abs(b)
  {
    if a < 0.0 && b < 0.0 {
      assert a * b == (-a) * (-b);
    } else if a < 0.0 {
      assert -(a * b) == (-a) * b;
    } else if b < 0.0 {
      assert -(a * b) == a * (-b);
    }
  }

  /** Scaling by a factor in [0, 1] does not grow a non-negative value. */
  lemma AtMostOne(a: real, k: real)
    requires a >= 0.0 && 0.0 <= k <= 1.0
    ensures 0.0 <= a * k <= a
  {
    MulNonNegativeOrZero(a, k);
    MulNonNegativeOrZero(a, 1.0 - k);
  }

  lemma MulNonNegativeOrZero(a: real, b: real)
    requires a >= 0.0 && b >= 0.0
    ensures a * b >= 0.0
  {
    if a > 0.0 {
      MulNonNegative(a, b);
    }
  }

  class Sampler {
    const keeper: TimeKeeper
    /** The sine waveform, `sine(x)` being `sin(2 * pi * x)`. */
    const sine: real -> real
    var numBits: int
    var scalar: real
    var stopTime: Option<real>
    var frequency: real
    var amplitude: real
    var shape: WaveShape
    var enabled: bool
    var proportion: real

    /** `Sampler(time_keeper, num_bits, stop_time, frequency, amplitude,
        shape)`: the mixin part starts disabled with no proportion. */
    constructor (keeper: TimeKeeper, numBits: int, stopTime: Option<real>, frequency: real,
                 amplitude: real, shape: WaveShape, sine: real -> real)
      ensures this.keeper == keeper && this.sine == sine
      ensures this.numBits == numBits && scalar == Scalar(numBits)
      ensures this.stopTime == stopTime && this.frequency == frequency
      ensures this.amplitude == amplitude && this.shape == shape
      ensures !enabled && proportion == 0.0
    {
      this.keeper := keeper;
      this.sine := sine;
      this.frequency := frequency;
      this.enabled := false;
      this.proportion := 0.0;
      this.amplitude := amplitude;
      this.stopTime := stopTime;
      this.shape := shape;
      this.numBits := numBits;
      this.scalar := Scalar(numBits);
    }

    /** `value(now)`: the waveform of the current shape at `now`, scaled to
        the sample range. It fails only where the waveform divides by the
        period of a zero frequency, and stays within full scale while the
        amplitude and the waveform stay within [-1, 1]. */
    function Value(now: real): (r: Result<int>)
      reads this
      ensures r.Fail? <==> frequency == 0.0 && (shape == Triangle || shape == Sawtooth)
      ensures var w := Wave(shape, frequency, now, sine);
              r.Ok? && scalar >= 0.0 && Abs(amplitude) <= 1.0 && Abs(w.value) <= 1.0 ==>
                Abs(r.value as real) <= scalar
    {
      match Wave(shape, frequency, now, sine)
      case Fail(e) => Fail(e)
      case Ok(w) =>
        SampleBounded(scalar, amplitude, w);
        Ok(SampleOf(scalar, amplitude, w))
    }

    /** `__next__`: exhausted exactly when a stop time is set and the clock
        has reached it; otherwise the value at the clock's time. */
    function Next(): (r: Result<int>)
      reads this, keeper
      ensures r == Fail(Exhausted) <==> PastStop(stopTime, keeper.time)
      ensures !PastStop(stopTime, keeper.time) ==> r == Value(keeper.time)
    {
      if PastStop(stopTime, keeper.time) then Fail(Exhausted) else Value(keeper.time)
    }

    /** `__copy__`: a new sampler on the same time keeper with the same
        bits, stop time, frequency, amplitude and shape; its full scale is
        computed again from the bits. Being new, it starts disabled with no
        proportion. */
    method Copy() returns (s: Sampler)
      ensures fresh(s) && s.keeper == keeper && s.sine == sine
      ensures s.numBits == numBits && s.scalar == Scalar(numBits) && s.stopTime == stopTime
      ensures s.frequency == frequency && s.amplitude == amplitude && s.shape == shape
      ensures !s.enabled && s.proportion == 0.0
    {
      s := new Sampler(keeper, numBits, stopTime, frequency, amplitude, shape, sine);
    }

    /** `copy(harmonic, stop_time)`: a copy whose stop time is replaced when
        one is given and whose frequency is moved to the given harmonic. */
    method CopyWith(harmonic: Option<int>, stopTime: Option<real>) returns (s: Sampler)
      ensures fresh(s) && s.keeper == keeper && s.sine == sine
      ensures s.numBits == numBits && s.scalar == Scalar(numBits)
      ensures s.stopTime == if stopTime.Some? then stopTime else this.stopTime
      ensures s.frequency == if harmonic.Some? then Harmonic(frequency, harmonic.value) else frequency
      ensures s.amplitude == amplitude && s.shape == shape
      ensures !s.enabled && s.proportion == 0.0
    {
      s := Copy();
      if stopTime.Some? {
        s.stopTime := stopTime;
      }
      if harmonic.Some? {
        s.frequency := Harmonic(s.frequency, harmonic.value);
      }
    }

    /** `next_shape()`. */
    method NextShape()
      modifies this
      ensures shape == Frequencies.NextShape(old(shape))
      ensures numBits == old(numBits) && scalar == old(scalar) && stopTime == old(stopTime)
      ensures frequency == old(frequency) && amplitude == old(amplitude)
      ensures enabled == old(enabled) && proportion == old(proportion)
    {
      shape := Frequencies.NextShape(shape);
    }
  }
}
