/** The frequency mixin (quasimoto/sampler/frequency.py) shared by samplers
    and sources: shape cycling, harmonics, the period, quantising a time to
    the next start of a period, and the three waveforms that are plain
    arithmetic over `floor`. The sine waveform is transcendental and is left
    abstract: it is given as a function `sine` with `sine(x)` standing for
    `sin(2 * pi * x)`. */
module Frequencies {
  import opened Reals
  import opened Outcomes
  import opened WaveEnums

  /** `next_shape`: the following shape in value order, the last wrapping
      round to the first, so that the new value is `1 + (value % 4)`. */
  function NextShape(s: WaveShape): (r: WaveShape)
    ensures ShapeValue(r) == 1 + ShapeValue(s) % 4
  {
    match s
    case Sine => Triangle
    case Triangle => Square
    case Square => Sawtooth
    case Sawtooth => Sine
  }

  /** Shapes cycle sine, triangle, square, sawtooth and back: each step
      changes the shape and four steps give it back. */
  lemma ShapeCycle(s: WaveShape)
    ensures NextShape(Sine) == Triangle && NextShape(Triangle) == Square
    ensures NextShape(Square) == Sawtooth && NextShape(Sawtooth) == Sine
    ensures NextShape(s) != s && NextShape(NextShape(NextShape(NextShape(s)))) == s
  {
  }

  /** `harmonic(index)`: `2 ** index` times the frequency; a negative index
      halves it `-index` times. */
  function Harmonic(f: real, index: int): (r: real)
    ensures f > 0.0 ==> r > 0.0
  {
    MulPositiveWhen(Pow2(index), f);
    Pow2(index) * f
  }

  lemma MulPositiveWhen(a: real, b: real)
    requires a > 0.0
    ensures b > 0.0 ==> a * b > 0.0
  {
    if b > 0.0 {
      MulPositive(a, b);
    }
  }

  /** Harmonic 0 is the frequency, 1 the octave above, -1 the octave below. */
  lemma HarmonicOctaves(f: real)
    ensures Harmonic(f, 0) == f && Harmonic(f, 1) == 2.0 * f && Harmonic(f, -1) == f / 2.0
  {
    assert Exp2(1) == 2;
  }

  /** Taking harmonics `a` then `b` above is taking harmonic `a + b`. */
  lemma HarmonicCompose(f: real, a: nat, b: nat)
    ensures Harmonic(Harmonic(f, a), b) == Harmonic(f, a + b)
  {
    Pow2Add(a, b);
    Associate(Pow2(b), Pow2(a), f);
  }

  /** Harmonic `-n` of harmonic `n` is the frequency again. */
  lemma HarmonicInverse(f: real, n: int)
    ensures Harmonic(Harmonic(f, n), -n) == f
  {
    Pow2Inverse(n);
    Associate(Pow2(-n), Pow2(n), f);
  }

  /** `period`: `1 / frequency`; a zero frequency is a division by zero. */
  function PeriodOf(f: real): (p: real)
    requires f != 0.0
    ensures p * f == 1.0
    ensures f > 0.0 <==> p > 0.0
  {
    1.0 / f
  }

  /** `quantize_to_period(time)`: the time moved forward to the next start
      of a period, `time + (period - time % period)`. */
  function QuantizeToPeriod(f: real, time: real): (r: Result<real>)
    ensures r.Fail? <==> f == 0.0
    ensures r.Fail? ==> r.error == DivisionByZero
  {
    if f == 0.0 then Fail(DivisionByZero)
    else
      var p := PeriodOf(f);
      Ok(time + (p - FloorMod(time, p)))
  }

  /** For a positive frequency the quantised time is strictly later, at most
      one period later, and a whole number of periods. */
  lemma QuantizeBounds(f: real, time: real)
    requires f > 0.0
    ensures var r := QuantizeToPeriod(f, time);
            && r.Ok? && time < r.value <= time + PeriodOf(f)
            && (r.value / PeriodOf(f)).Floor as real == r.value / PeriodOf(f)
  {
    var p := PeriodOf(f);
    var q := (time / p).Floor;
    var m := FloorMod(time, p);
    var r := time + (p - m);
    assert QuantizeToPeriod(f, time) == Ok(r);
    assert m == time - p * q as real;
    WholePeriods(time, p, q as real, m);
    assert r / p == (q + 1) as real;
  }

  /** Adding the period less the remainder lands on a whole multiple. */
  lemma WholePeriods(time: real, p: real, q: real, m: real)
    requires p > 0.0 && m == time - p * q
    ensures (time + (p - m)) / p == q + 1.0
  {
    assert time + (p - m) == p * (q + 1.0);
    DivUnique(time + (p - m), p, q + 1.0);
  }

  /** `square(now)`: with `step = frequency * now`,
      `2 * (2 * floor(step) - floor(2 * step)) + 1`. It is 1 in the first half
      of each cycle and -1 in the second. */
  function SquareWave(f: real, now: real): (r: int)
    ensures r == 1 || r == -1
    ensures r == 1 <==> f * now - (f * now).Floor as real < 0.5
  {
    var step := f * now;
    DoubleFloor(step);
    2 * (2 * step.Floor - (2.0 * step).Floor) + 1
  }

  /** The floor of twice a value is twice its floor, plus one when its
      fractional part is at least a half. */
  lemma DoubleFloor(s: real)
    ensures s - s.Floor as real < 0.5 ==> (2.0 * s).Floor == 2 * s.Floor
    ensures s - s.Floor as real >= 0.5 ==> (2.0 * s).Floor == 2 * s.Floor + 1
  {
    var q := s.Floor;
    if s - q as real < 0.5 {
      assert (2 * q) as real <= 2.0 * s < (2 * q) as real + 1.0;
    } else {
      assert (2 * q + 1) as real <= 2.0 * s < (2 * q + 1) as real + 1.0;
    }
  }

  /** `sawtooth(now)`: with `phase = now / period`,
      `2 * (phase - floor(0.5 + phase))`, rising from -1 towards 1 in each
      cycle. */
  function SawtoothWave(f: real, now: real): (r: real)
    requires f != 0.0
    ensures -1.0 <= r < 1.0
  {
    var phase := now / PeriodOf(f);
    2.0 * (phase - (0.5 + phase).Floor as real)
  }

  /** Dividing by the period is multiplying by the frequency, so the phase
      counts cycles. */
  lemma SawtoothPhase(f: real, now: real)
    requires f != 0.0
    ensures now / PeriodOf(f) == now * f
  {
  }

  /** `triangle(now)`:
      `(4 / period) * |((now - period / 4) % period) - period / 2| - 1`. */
  function TriangleWave(f: real, now: real): (r: real)
    requires f != 0.0
    ensures f > 0.0 ==> -1.0 <= r <= 1.0
  {
    var p := PeriodOf(f);
    var d := Abs(FloorMod(now - p / 4.0, p) - p / 2.0);
    TriangleScale(p, d);
    (4.0 / p) * d - 1.0
  }

  /** For a positive period, a distance of at most half a period scales to
      at most 2. */
  lemma TriangleScale(p: real, d: real)
    requires p != 0.0 && d >= 0.0
    ensures p > 0.0 && d <= p / 2.0 ==> 0.0 <= (4.0 / p) * d <= 2.0
  {
    if p > 0.0 && d <= p / 2.0 {
      var k := 4.0 / p;
      MulNonNegative(k, d);
      MulNonNegative(k, p / 2.0 - d);
      assert k * (p / 2.0) == 2.0;
    }
  }

  /** The waveform of `shape` at time `now`, as `by_shape` dispatches it.
      Triangle and sawtooth divide by the period, so they fail for a zero
      frequency. */
  function Wave(shape: WaveShape, f: real, now: real, sine: real -> real): (r: Result<real>)
    ensures r.Fail? <==> f == 0.0 && (shape == Triangle || shape == Sawtooth)
    ensures r.Fail? ==> r.error == DivisionByZero
    ensures shape == Sine ==> r == Ok(sine(now * f))
    ensures r.Ok? && (shape == Square || shape == Sawtooth || (shape == Triangle && f > 0.0)) ==>
              -1.0 <= r.value <= 1.0
  {
    match shape
    case Sine => Ok(sine(now * f))
    case Triangle => if f == 0.0 then Fail(DivisionByZero) else Ok(TriangleWave(f, now))
    case Square => Ok(SquareWave(f, now) as real)
    case Sawtooth => if f == 0.0 then Fail(DivisionByZero) else Ok(SawtoothWave(f, now))
  }

  /** Every waveform repeats after one period. */
  lemma WavePeriodic(shape: WaveShape, f: real, now: real, sine: real -> real)
    requires f != 0.0 && shape != Sine
    ensures Wave(shape, f, now + PeriodOf(f), sine) == Wave(shape, f, now, sine)
  {
    var p := PeriodOf(f);
    match shape
    case Triangle =>
      var x := now - p / 4.0;
      FloorModShift(x, p);
      assert (now + p) - p / 4.0 == x + p;
      assert FloorMod((now + p) - p / 4.0, p) == FloorMod(x, p);
      assert TriangleWave(f, now + p) == TriangleWave(f, now);
    case Square =>
      SquarePeriodic(f, now);
    case Sawtooth =>
      DivAddOne(now, p);
      FloorShift(0.5 + now / p);
      assert 0.5 + (now + p) / p == (0.5 + now / p) + 1.0;
  }

  /** The square wave repeats after one period. */
  lemma SquarePeriodic(f: real, now: real)
    requires f != 0.0
    ensures SquareWave(f, now + PeriodOf(f)) == SquareWave(f, now)
  {
    var s := f * now;
    var later := f * (now + PeriodOf(f));
    assert later == s + 1.0 by {
      assert f * PeriodOf(f) == 1.0;
    }
    SquareStepShift(s);
    assert SquareWave(f, now + PeriodOf(f)) == 2 * (2 * later.Floor - (2.0 * later).Floor) + 1;
  }

  /** The square wave's expression in `step` is the same one cycle on. */
  lemma SquareStepShift(s: real)
    ensures 2 * (2 * (s + 1.0).Floor - (2.0 * (s + 1.0)).Floor) + 1 == 2 * (2 * s.Floor - (2.0 * s).Floor) + 1
  {
    FloorShift(s);
    FloorShift(2.0 * s);
    FloorShift(2.0 * s + 1.0);
    assert 2.0 * (s + 1.0) == (2.0 * s + 1.0) + 1.0;
  }

  lemma FloorShift(x: real)
    ensures (x + 1.0).Floor == x.Floor + 1
  {
  }

  lemma DivAddOne(x: real, m: real)
    requires m != 0.0
    ensures (x + m) / m == x / m + 1.0
  {
    var y := x / m;
    assert y * m == x;
    assert (y + 1.0) * m == x + m;
    DivUnique(x + m, m, y + 1.0);
  }

  /** The remainder is the same one modulus further on. */
  lemma FloorModShift(x: real, m: real)
    requires m != 0.0
    ensures FloorMod(x + m, m) == FloorMod(x, m)
  {
    var q := (x / m).Floor;
    DivAddOne(x, m);
    FloorShift(x / m);
    assert ((x + m) / m).Floor == q + 1;
    assert m * (q + 1) as real == m * q as real + m;
  }
}
