/** The stereo interface (quasimoto/stereo/__init__.py): two signal channels
    on one time keeper. Each frame pulls the left channel, then the right,
    then advances the clock once. Frames can be computed ahead into a FIFO
    queue; a request for frames drains the queue first and computes the rest
    on demand, writing every sample as 16 little-endian bits, left before
    right, and logging the samples of each side.

    What the interface produces is described by `Play`, a function of the
    two mixers and the clock; the methods are proved against it. */
module Stereo {
  import opened Bytes
  import opened Outcomes
  import opened TimeKeepers
  import opened Parameters
  import opened Channels
  import WaveWriters

  /** `num_channels`. */
  const NumChannels: int := 2

  // ---------------------------------------------------------------- frames

  /** One frame: the left sample, then the right. */
  type Frame = (int, int)

  /** What `to_stream` appends for one sample: its low 16 bits, least
      significant byte first. */
  function EncodeFrame(f: Frame): (r: seq<Byte>)
    ensures |r| == 4
  {
    EncodeLow16(f.0) + EncodeLow16(f.1)
  }

  /** The bytes of frames written one after the other. */
  function EncodeFrames(fs: seq<Frame>): (r: seq<Byte>)
    ensures |r| == 4 * |fs|
  {
    if fs == [] then [] else EncodeFrames(fs[..|fs| - 1]) + EncodeFrame(fs[|fs| - 1])
  }

  lemma EncodeFramesSnoc(fs: seq<Frame>, f: Frame)
    ensures EncodeFrames(fs + [f]) == EncodeFrames(fs) + EncodeFrame(f)
  {
    assert (fs + [f])[..|fs|] == fs;
  }

  /** The bytes of two runs of frames are the bytes of each, in order. */
  lemma {:induction false} EncodeFramesAppend(a: seq<Frame>, b: seq<Frame>)
    ensures EncodeFrames(a + b) == EncodeFrames(a) + EncodeFrames(b)
  {
    if b != [] {
      var init := b[..|b| - 1];
      EncodeFramesAppend(a, init);
      assert a + b == (a + init) + [b[|b| - 1]];
      assert b == init + [b[|b| - 1]];
      EncodeFramesSnoc(a + init, b[|b| - 1]);
      EncodeFramesSnoc(init, b[|b| - 1]);
    } else {
      assert a + b == a;
    }
  }

  /** Frame `k` occupies bytes `4k` to `4k + 4`. */
  lemma {:induction false} EncodeFramesAt(fs: seq<Frame>, k: nat)
    requires k < |fs|
    ensures EncodeFrames(fs)[4 * k..4 * k + 4] == EncodeFrame(fs[k])
  {
    var n := |fs| - 1;
    var front := fs[..n];
    assert EncodeFrames(fs) == EncodeFrames(front) + EncodeFrame(fs[n]);
    if k < n {
      EncodeFramesAt(front, k);
    }
  }

  predicate InRange(f: Frame) {
    -0x8000 <= f.0 < 0x8000 && -0x8000 <= f.1 < 0x8000
  }

  /** The bytes decode back to the frames: every sample within 16 bits is
      read back, left at `4k` and right at `4k + 2`. */
  lemma FramesDecode(fs: seq<Frame>, k: nat)
    requires k < |fs| && InRange(fs[k])
    ensures I16At(EncodeFrames(fs), 4 * k) == fs[k].0
    ensures I16At(EncodeFrames(fs), 4 * k + 2) == fs[k].1
  {
    FrameBytes(fs, k);
    Low16Decodes(fs[k].0, EncodeFrames(fs), 4 * k);
    Low16Decodes(fs[k].1, EncodeFrames(fs), 4 * k + 2);
  }

  /** The two samples of frame `k`, at `4k` and `4k + 2`. */
  lemma FrameBytes(fs: seq<Frame>, k: nat)
    requires k < |fs|
    ensures EncodeFrames(fs)[4 * k..4 * k + 2] == EncodeLow16(fs[k].0)
    ensures EncodeFrames(fs)[4 * k + 2..4 * k + 4] == EncodeLow16(fs[k].1)
  {
    EncodeFramesAt(fs, k);
    Halves(EncodeFrames(fs), 4 * k, EncodeLow16(fs[k].0), EncodeLow16(fs[k].1));
  }

  lemma Low16Decodes(v: int, b: seq<Byte>, i: nat)
    requires -0x8000 <= v < 0x8000 && i + 2 <= |b| && b[i..i + 2] == EncodeLow16(v)
    ensures I16At(b, i) == v
  {
    EncodeI16Decodes(v, b, i);
  }

  lemma Halves(b: seq<Byte>, i: nat, x: seq<Byte>, y: seq<Byte>)
    requires i + 4 <= |b| && |x| == 2 && |y| == 2 && b[i..i + 4] == x + y
    ensures b[i..i + 2] == x && b[i + 2..i + 4] == y
  {
    assert b[i..i + 2] == b[i..i + 4][..2];
    assert b[i + 2..i + 4] == b[i..i + 4][2..];
  }

  /** The frames as the two-point sample tuples a WAVE file holds. */
  function Tuples(fs: seq<Frame>): (r: seq<seq<I16>>)
    requires forall k :: 0 <= k < |fs| ==> InRange(fs[k])
    ensures |r| == |fs|
    ensures forall k :: 0 <= k < |fs| ==> r[k] == [fs[k].0, fs[k].1]
  {
    seq(|fs|, k requires 0 <= k < |fs| && InRange(fs[k]) => [fs[k].0 as I16, fs[k].1 as I16])
  }

  /** Within 16 bits the bytes of the frames are exactly the data a stereo
      16-bit WAVE writer emits for the same sample tuples. */
  lemma {:induction false} FramesAreWaveData(fs: seq<Frame>)
    requires forall k :: 0 <= k < |fs| ==> InRange(fs[k])
    ensures EncodeFrames(fs) == EncodeI16s(WaveWriters.Flatten(Tuples(fs)))
  {
    if fs != [] {
      var n := |fs| - 1;
      var front := fs[..n];
      FramesAreWaveData(front);
      assert Tuples(fs)[..n] == Tuples(front);
      assert WaveWriters.Flatten(Tuples(fs)) == WaveWriters.Flatten(Tuples(front)) + [fs[n].0, fs[n].1];
      EncodeI16sAppend(WaveWriters.Flatten(Tuples(front)), [fs[n].0, fs[n].1]);
      assert EncodeI16s([fs[n].0 as I16, fs[n].1 as I16]) == EncodeI16(fs[n].0) + EncodeI16(fs[n].1) by {
        assert [fs[n].0 as I16, fs[n].1 as I16][1..] == [fs[n].1 as I16];
      }
    }
  }

  /** The left samples of the frames. */
  function Lefts(fs: seq<Frame>): (r: seq<int>)
    ensures |r| == |fs| && forall k :: 0 <= k < |fs| ==> r[k] == fs[k].0
  {
    seq(|fs|, k requires 0 <= k < |fs| => fs[k].0)
  }

  /** The right samples of the frames. */
  function Rights(fs: seq<Frame>): (r: seq<int>)
    ensures |r| == |fs| && forall k :: 0 <= k < |fs| ==> r[k] == fs[k].1
  {
    seq(|fs|, k requires 0 <= k < |fs| => fs[k].1)
  }

  /** The samples of two runs of frames are those of each, in order. */
  lemma SidesAppend(a: seq<Frame>, b: seq<Frame>)
    ensures Lefts(a + b) == Lefts(a) + Lefts(b) && Rights(a + b) == Rights(a) + Rights(b)
  {
    assert forall k :: 0 <= k < |a + b| ==> Lefts(a + b)[k] == (Lefts(a) + Lefts(b))[k];
    assert forall k :: 0 <= k < |a + b| ==> Rights(a + b)[k] == (Rights(a) + Rights(b))[k];
  }

  /** Logging one more frame's samples. */
  lemma LoggedSnoc(left: seq<int>, right: seq<int>, fs: seq<Frame>, f: Frame)
    ensures left + Lefts(fs) + [f.0] == left + Lefts(fs + [f])
    ensures right + Rights(fs) + [f.1] == right + Rights(fs + [f])
  {
    SidesAppend(fs, [f]);
    assert Lefts([f]) == [f.0];
    assert Rights([f]) == [f.1];
  }

  // ---------------------------------------------------------------- playing

  /** How a channel turns its mixer and the clock's time into a sample and
      the mixer after it; for a signal channel this is `Channels.Step`. */
  type Mixing = (Mixer, real) -> (int, Mixer)

  /** Frames produced and the two mixers after them. */
  datatype Played = Played(frames: seq<Frame>, left: Mixer, right: Mixer)

  /** `next()` at clock time `time`: the left channel mixed, then the right,
      both at that time. */
  function Pulse(step: Mixing, left: Mixer, right: Mixer, time: real): (r: Played)
    ensures |r.frames| == 1
  {
    var (l, left') := step(left, time);
    var (r, right') := step(right, time);
    Played([(l, r)], left', right')
  }

  /** `n` calls of `next()` in a row from clock time `t0`: call `k` mixes at
      `PullTime(t0, period, k)`, the time `k` advances later. */
  function Play(step: Mixing, left: Mixer, right: Mixer, t0: real, period: real, n: nat): (r: Played)
    ensures |r.frames| == n
  {
    if n == 0 then Played([], left, right)
    else
      var before := Play(step, left, right, t0, period, n - 1);
      var last := Pulse(step, before.left, before.right, PullTime(t0, period, n - 1));
      Played(before.frames + last.frames, last.left, last.right)
  }

  /** One more call of `next()`. */
  lemma PlayUnfold(step: Mixing, left: Mixer, right: Mixer, t0: real, period: real, n: nat)
    ensures var before := Play(step, left, right, t0, period, n);
            var last := Pulse(step, before.left, before.right, PullTime(t0, period, n));
            Play(step, left, right, t0, period, n + 1) == Played(before.frames + last.frames, last.left, last.right)
  {
  }

  /** Playing `a + b` frames is playing `a`, then `b` from where they left
      the mixers and the clock. */
  lemma {:induction false} PlayAdd(step: Mixing, left: Mixer, right: Mixer, t0: real, period: real, a: nat, b: nat)
    ensures var first := Play(step, left, right, t0, period, a);
            var second := Play(step, first.left, first.right, PullTime(t0, period, a), period, b);
            Play(step, left, right, t0, period, a + b) == Played(first.frames + second.frames, second.left, second.right)
  {
    var first := Play(step, left, right, t0, period, a);
    if b > 0 {
      PlayAdd(step, left, right, t0, period, a, b - 1);
      PullTimeAdd(t0, period, a, b - 1);
      var second := Play(step, first.left, first.right, PullTime(t0, period, a), period, b - 1);
      var last := Pulse(step, second.left, second.right, PullTime(t0, period, a + b - 1));
      assert first.frames + second.frames + last.frames == first.frames + (second.frames + last.frames);
    } else {
      assert first.frames + [] == first.frames;
    }
  }

  /** Draining `k` computed-ahead frames before computing the rest on demand
      delivers the frames computing on demand alone would: buffering does
      not change what is heard. */
  lemma BufferedFramesMatch(step: Mixing, left: Mixer, right: Mixer, t0: real, period: real, k: nat, n: nat)
    ensures var ahead := Play(step, left, right, t0, period, k);
            var m := Min(k, n);
            ahead.frames[..m] + Play(step, ahead.left, ahead.right, PullTime(t0, period, k), period, n - m).frames
              == Play(step, left, right, t0, period, n).frames
  {
    var ahead := Play(step, left, right, t0, period, k);
    var rest := Play(step, ahead.left, ahead.right, PullTime(t0, period, k), period, n - Min(k, n));
    if n <= k {
      PlayPrefix(step, left, right, t0, period, n, k);
      assert rest.frames == [];
      assert ahead.frames[..n] + [] == ahead.frames[..n];
    } else {
      PlayAdd(step, left, right, t0, period, k, n - k);
      assert ahead.frames[..k] == ahead.frames;
    }
  }

  /** The first `n` of `k` frames played are the `n` frames played. */
  lemma PlayPrefix(step: Mixing, left: Mixer, right: Mixer, t0: real, period: real, n: nat, k: nat)
    requires n <= k
    ensures Play(step, left, right, t0, period, k).frames[..n] == Play(step, left, right, t0, period, n).frames
  {
    PlayAdd(step, left, right, t0, period, n, k - n);
  }

  /** A frame is the two channels' steps at the same time. */
  lemma PulseOf(step: Mixing, left: Mixer, right: Mixer, time: real, l: int, r: int, left': Mixer, right': Mixer)
    requires step(left, time) == (l, left') && step(right, time) == (r, right')
    ensures Pulse(step, left, right, time) == Played([(l, r)], left', right')
  {
  }

  /** A mixing step that keeps a mixer without sources silent and without
      sources. */
  ghost predicate KeepsSilence(step: Mixing) {
    forall m: Mixer, time: real :: m.names == [] ==> step(m, time).0 == 0 && step(m, time).1.names == []
  }

  /** Mixers with no sources are silent, and stay without sources. */
  lemma PlaySilent(left: Mixer, right: Mixer, t0: real, period: real, n: nat)
    requires left.names == [] && right.names == []
    ensures var r := Play(Step, left, right, t0, period, n);
            && r.left.names == [] && r.right.names == []
            && forall k :: 0 <= k < n ==> r.frames[k] == (0, 0)
  {
    forall m: Mixer, time: real | m.names == []
      ensures Step(m, time).0 == 0 && Step(m, time).1.names == []
    {
      StepSilent(m, time);
    }
    PlayKeepsSilence(Step, left, right, t0, period, n);
  }

  lemma {:induction false} PlayKeepsSilence(step: Mixing, left: Mixer, right: Mixer, t0: real, period: real, n: nat)
    requires KeepsSilence(step) && left.names == [] && right.names == []
    ensures var r := Play(step, left, right, t0, period, n);
            && r.left.names == [] && r.right.names == []
            && forall k :: 0 <= k < n ==> r.frames[k] == (0, 0)
  {
    if n > 0 {
      PlayKeepsSilence(step, left, right, t0, period, n - 1);
      var before := Play(step, left, right, t0, period, n - 1);
      var time := PullTime(t0, period, n - 1);
      assert step(before.left, time).0 == 0 && step(before.right, time).0 == 0;
    }
  }

  lemma StepSilent(m: Mixer, time: real)
    requires m.names == []
    ensures Step(m, time).0 == 0 && Step(m, time).1.names == []
  {
    var ps := Pulls(m.names, m.sources, time);
    assert ps == [];
    MixSilent(ps, m.amplitude);
    WithoutNothing([], Elems(StoppedNames([], ps)));
  }

  /** Two identical mixers play identical sides: every frame has equal left
      and right samples. */
  lemma {:induction false} PlayMirrored(step: Mixing, m: Mixer, t0: real, period: real, n: nat)
    ensures var r := Play(step, m, m, t0, period, n);
            r.left == r.right && forall k :: 0 <= k < n ==> r.frames[k].0 == r.frames[k].1
  {
    if n > 0 {
      PlayMirrored(step, m, t0, period, n - 1);
      var before := Play(step, m, m, t0, period, n - 1);
      var last := Pulse(step, before.left, before.right, PullTime(t0, period, n - 1));
      var r := Play(step, m, m, t0, period, n);
      assert r.frames == before.frames + last.frames;
      forall k | 0 <= k < n
        ensures r.frames[k].0 == r.frames[k].1
      {
        if k < n - 1 {
          assert r.frames[k] == before.frames[k];
        } else {
          assert r.frames[k] == last.frames[0];
        }
      }
    }
  }

  // ---------------------------------------------------------------- interface

  /** A channel whose fields and sources did not change is the same mixer. */
  twostate lemma StateKept(c: SignalChannel)
    requires unchanged(c) && unchanged(c.sources.Values)
    ensures c.State() == old(c.State())
  {
    assert forall n :: n in c.sources ==> c.sources[n] in c.sources.Values;
    ViewsKept(c.sources);
  }

  class StereoInterface {
    const keeper: TimeKeeper
    const left: SignalChannel
    const right: SignalChannel
    /** `sample_queue`: frames computed ahead, oldest first. */
    var queue: seq<Frame>
    /** `left_raw` and `right_raw`: every sample handed out by `frames`. */
    var leftRaw: seq<int>
    var rightRaw: seq<int>

    /** Both channels run on the interface's keeper, are distinct objects
        and, as built, have no stop time. */
    ghost predicate Valid()
      reads this, keeper, left, right
    {
      && keeper.Valid() && left.Valid() && right.Valid() && left != right
      && left.keeper == keeper && right.keeper == keeper
      && left.stopTime.None? && right.stopTime.None?
    }

    /** `StereoInterface()`: a keeper at time zero with the default rate, a
        left channel with default parameters and a right channel copied from
        it. Both mixers start equal and empty, so the interface starts silent
        (`PlaySilent`) and mirrored (`PlayMirrored`). */
    constructor ()
      ensures Valid() && fresh(keeper) && fresh(left) && fresh(right)
      ensures keeper.time == 0.0 && keeper.sampleRate == DefaultSampleRate
      ensures left.State() == right.State() && left.names == []
      ensures queue == [] && leftRaw == [] && rightRaw == []
    {
      var k := new TimeKeeper(0.0, DefaultSampleRate);
      var l := new SignalChannel(k, Default);
      var r := l.Copy();
      keeper, left, right := k, l, r;
      queue := [];
      leftRaw := [];
      rightRaw := [];
    }

    /** `next()`: one frame, after which the clock has ticked once. */
    method Next() returns (f: Frame)
      requires Valid()
      modifies left, right, keeper
      ensures Valid()
      ensures var p := old(Pulse(Step, left.State(), right.State(), keeper.time));
              [f] == p.frames && left.State() == p.left && right.State() == p.right
      ensures var t := Tick(old(keeper.State()), keeper.period);
              keeper.State() == t.clock && keeper.fired == old(keeper.fired) + t.fired
    {
      ghost var l0, r0, time := left.State(), right.State(), keeper.time;
      var l, r := PullSides();
      PulseOf(Step, l0, r0, time, l, r, left.State(), right.State());
      Advance();
      f := (l, r);
    }

    /** The clock's `advance()` at the end of a frame, which leaves both
        mixers as they are. */
    method Advance()
      requires Valid()
      modifies keeper
      ensures Valid() && left.State() == old(left.State()) && right.State() == old(right.State())
      ensures var t := Tick(old(keeper.State()), keeper.period);
              keeper.State() == t.clock && keeper.fired == old(keeper.fired) + t.fired
    {
      keeper.Advance();
      StateKept(left);
      StateKept(right);
    }

    /** The two `next` calls of a frame: the left channel, then the right,
        each one step of its mixer at the clock's time. */
    method PullSides() returns (l: int, r: int)
      requires Valid()
      modifies left, right
      ensures Valid()
      ensures (l, left.State()) == Step(old(left.State()), keeper.time)
      ensures (r, right.State()) == Step(old(right.State()), keeper.time)
    {
      var x := left.Next();
      StateKept(right);
      label pulled:
      var y := right.Next();
      StateKept@pulled(left);
      l, r := x.value, y.value;
    }

    /** `buffer_to_duration(duration)`: frames are computed ahead until the
        queue holds `int(duration * sample_rate)` of them; a queue already as
        long is left alone. */
    method BufferToDuration(duration: real)
      requires Valid()
      modifies this, left, right, keeper
      ensures Valid()
      ensures var k := Max(NumSamples(duration, keeper.sampleRate) - |old(queue)|, 0);
              var p := old(Play(Step, left.State(), right.State(), keeper.time, keeper.period, k));
              var t := Ticks(old(keeper.State()), keeper.period, k);
              && queue == old(queue) + p.frames && left.State() == p.left && right.State() == p.right
              && keeper.State() == t.clock && keeper.fired == old(keeper.fired) + t.fired
      ensures leftRaw == old(leftRaw) && rightRaw == old(rightRaw)
    {
      var count := NumSamples(duration, keeper.sampleRate) - |queue|;
      ghost var l0, r0, c0, f0, q0 := left.State(), right.State(), keeper.State(), keeper.fired, queue;
      assert Buffered(l0, r0, c0, f0, q0, leftRaw, rightRaw, 0);
      BufferFrames(l0, r0, c0, f0, q0, leftRaw, rightRaw, Max(count, 0));
    }

    /** The loop of `buffer_to_duration`: `n` frames computed and queued. */
    method BufferFrames(ghost l0: Mixer, ghost r0: Mixer, ghost c0: Clock, ghost f0: seq<Firing>, ghost q0: seq<Frame>,
                        ghost lr: seq<int>, ghost rr: seq<int>, n: nat)
      requires Valid() && Buffered(l0, r0, c0, f0, q0, lr, rr, 0)
      modifies this, left, right, keeper
      ensures Valid() && Buffered(l0, r0, c0, f0, q0, lr, rr, n)
    {
      for i := 0 to n
        invariant Valid() && Buffered(l0, r0, c0, f0, q0, lr, rr, i)
      {
        BufferStep(l0, r0, c0, f0, q0, lr, rr, i);
      }
    }

    /** Where `buffer_to_duration` stands after `i` frames, from mixers `l0`
        and `r0`, clock `c0` with firings `f0`, queue `q0` and logs `lr` and
        `rr`: the `i` frames played from there are queued behind `q0`, each
        mixer has taken `i` steps, the clock has ticked `i` times and the logs
        are untouched. */
    ghost predicate Buffered(l0: Mixer, r0: Mixer, c0: Clock, f0: seq<Firing>, q0: seq<Frame>,
                             lr: seq<int>, rr: seq<int>, i: nat)
      reads this, keeper, left, right, left.sources.Values, right.sources.Values
    {
      var p := Play(Step, l0, r0, c0.time, keeper.period, i);
      var t := Ticks(c0, keeper.period, i);
      && queue == q0 + p.frames && left.State() == p.left && right.State() == p.right
      && keeper.State() == t.clock && keeper.fired == f0 + t.fired
      && leftRaw == lr && rightRaw == rr
    }

    /** One turn of `buffer_to_duration`'s loop, from `i` frames to `i + 1`. */
    method BufferStep(ghost l0: Mixer, ghost r0: Mixer, ghost c0: Clock, ghost f0: seq<Firing>, ghost q0: seq<Frame>,
                      ghost lr: seq<int>, ghost rr: seq<int>, ghost i: nat)
      requires Valid() && Buffered(l0, r0, c0, f0, q0, lr, rr, i)
      modifies this, left, right, keeper
      ensures Valid() && Buffered(l0, r0, c0, f0, q0, lr, rr, i + 1)
    {
      TicksTime(c0, keeper.period, i);
      TicksUnfold(c0, keeper.period, i);
      PlayUnfold(Step, l0, r0, c0.time, keeper.period, i);
      ghost var before := Ticks(c0, keeper.period, i);
      ghost var played := Play(Step, l0, r0, c0.time, keeper.period, i);
      Enqueue();
      Regroup(f0, before.fired, Tick(before.clock, keeper.period).fired);
      Regroup(q0, played.frames, Pulse(Step, played.left, played.right, PullTime(c0.time, keeper.period, i)).frames);
    }

    /** One turn of `buffer_to_duration`'s loop: a frame computed and put at
        the back of the queue. */
    method Enqueue()
      requires Valid()
      modifies this, left, right, keeper
      ensures Valid()
      ensures var p := old(Pulse(Step, left.State(), right.State(), keeper.time));
              queue == old(queue) + p.frames && left.State() == p.left && right.State() == p.right
      ensures var t := Tick(old(keeper.State()), keeper.period);
              keeper.State() == t.clock && keeper.fired == old(keeper.fired) + t.fired
      ensures leftRaw == old(leftRaw) && rightRaw == old(rightRaw)
    {
      var f := Next();
      Push(f);
    }

    /** `sample_queue.append(frame)`, which leaves the channels and the clock
        alone. */
    method Push(f: Frame)
      requires Valid()
      modifies this
      ensures Valid() && left.State() == old(left.State()) && right.State() == old(right.State())
      ensures queue == old(queue) + [f] && leftRaw == old(leftRaw) && rightRaw == old(rightRaw)
    {
      queue := queue + [f];
      StateKept(left);
      StateKept(right);
    }

    /** `frames(frame_count)`: up to `frame_count` queued frames first, in
        order, then as many computed on demand as are still wanted; the
        bytes of all of them, and their samples logged on each side. */
    method Frames(frameCount: int) returns (bytes: seq<Byte>)
      requires Valid()
      modifies this, left, right, keeper
      ensures Valid()
      ensures var m := Min(|old(queue)|, frameCount);
              var taken := Max(m, 0);
              var p := old(Play(Step, left.State(), right.State(), keeper.time, keeper.period, frameCount - m));
              var t := Ticks(old(keeper.State()), keeper.period, frameCount - m);
              var out := old(queue)[..taken] + p.frames;
              && bytes == EncodeFrames(out) && queue == old(queue)[taken..]
              && leftRaw == old(leftRaw) + Lefts(out) && rightRaw == old(rightRaw) + Rights(out)
              && left.State() == p.left && right.State() == p.right
              && keeper.State() == t.clock && keeper.fired == old(keeper.fired) + t.fired
    {
      var fromQueue := Min(|queue|, frameCount);
      ghost var l0, r0, c0, f0, q0 := left.State(), right.State(), keeper.State(), keeper.fired, queue;
      var taken := Max(fromQueue, 0);
      ghost var p := Play(Step, l0, r0, c0.time, keeper.period, frameCount - fromQueue);
      var queued := FromQueue(taken);
      assert left.State() == l0 && right.State() == r0 && keeper.State() == c0 && keeper.fired == f0;
      var computed := OnDemand(frameCount - fromQueue);
      assert left.State() == p.left && right.State() == p.right;
      EncodeFramesAppend(q0[..taken], p.frames);
      SidesAppend(q0[..taken], p.frames);
      Regroup(old(leftRaw), Lefts(q0[..taken]), Lefts(p.frames));
      Regroup(old(rightRaw), Rights(q0[..taken]), Rights(p.frames));
      bytes := queued + computed;
    }

    /** `frames`' first loop: `count` frames taken off the front of the
        queue, encoded and logged. */
    method FromQueue(count: nat) returns (bytes: seq<Byte>)
      requires Valid() && count <= |queue|
      modifies this
      ensures Valid() && left.State() == old(left.State()) && right.State() == old(right.State())
      ensures var out := old(queue)[..count];
              && bytes == EncodeFrames(out) && queue == old(queue)[count..]
              && leftRaw == old(leftRaw) + Lefts(out) && rightRaw == old(rightRaw) + Rights(out)
    {
      ghost var l0, r0, q0 := left.State(), right.State(), queue;
      bytes := [];
      assert Drained(l0, r0, q0, leftRaw, rightRaw, bytes, 0);
      for i := 0 to count
        invariant Valid() && Drained(l0, r0, q0, old(leftRaw), old(rightRaw), bytes, i)
      {
        bytes := DrainStep(l0, r0, q0, old(leftRaw), old(rightRaw), bytes, i);
      }
    }

    /** Where `frames`' first loop stands after `i` frames, from mixers `l0`
        and `r0`, queue `q0` and logs `lr` and `rr`: the first `i` queued
        frames are off the queue, encoded in `bytes` and logged, and the
        mixers are untouched. */
    ghost predicate Drained(l0: Mixer, r0: Mixer, q0: seq<Frame>, lr: seq<int>, rr: seq<int>, bytes: seq<Byte>, i: nat)
      reads this, left, right, left.sources.Values, right.sources.Values
    {
      && i <= |q0| && queue == q0[i..] && bytes == EncodeFrames(q0[..i])
      && leftRaw == lr + Lefts(q0[..i]) && rightRaw == rr + Rights(q0[..i])
      && left.State() == l0 && right.State() == r0
    }

    /** One turn of `frames`' first loop, from `i` frames to `i + 1`. */
    method DrainStep(ghost l0: Mixer, ghost r0: Mixer, ghost q0: seq<Frame>, ghost lr: seq<int>, ghost rr: seq<int>,
                     bytes: seq<Byte>, ghost i: nat) returns (bytes': seq<Byte>)
      requires Valid() && Drained(l0, r0, q0, lr, rr, bytes, i) && i < |q0|
      modifies this
      ensures Valid() && Drained(l0, r0, q0, lr, rr, bytes', i + 1)
    {
      var f := Dequeue();
      EncodeFramesSnoc(q0[..i], f);
      LoggedSnoc(lr, rr, q0[..i], f);
      assert q0[..i + 1] == q0[..i] + [f];
      bytes' := bytes + EncodeFrame(f);
    }

    /** `frames`' second loop: `count` frames computed, encoded and logged. */
    method OnDemand(count: int) returns (bytes: seq<Byte>)
      requires Valid() && count >= 0
      modifies this, left, right, keeper
      ensures Valid()
      ensures var p := old(Play(Step, left.State(), right.State(), keeper.time, keeper.period, count));
              var t := Ticks(old(keeper.State()), keeper.period, count);
              && bytes == EncodeFrames(p.frames) && queue == old(queue)
              && leftRaw == old(leftRaw) + Lefts(p.frames) && rightRaw == old(rightRaw) + Rights(p.frames)
              && left.State() == p.left && right.State() == p.right
              && keeper.State() == t.clock && keeper.fired == old(keeper.fired) + t.fired
    {
      ghost var l0, r0, c0, f0 := left.State(), right.State(), keeper.State(), keeper.fired;
      bytes := [];
      for i := 0 to count
        invariant Valid() && queue == old(queue)
        invariant var p := Play(Step, l0, r0, c0.time, keeper.period, i);
                  && bytes == EncodeFrames(p.frames) && leftRaw == old(leftRaw) + Lefts(p.frames) && rightRaw == old(rightRaw) + Rights(p.frames)
                  && left.State() == p.left && right.State() == p.right
        invariant keeper.State() == Ticks(c0, keeper.period, i).clock
        invariant keeper.fired == f0 + Ticks(c0, keeper.period, i).fired
      {
        TicksTime(c0, keeper.period, i);
        TicksUnfold(c0, keeper.period, i);
        PlayUnfold(Step, l0, r0, c0.time, keeper.period, i);
        ghost var before := Ticks(c0, keeper.period, i);
        ghost var out := Play(Step, l0, r0, c0.time, keeper.period, i).frames;
        var f := Emit();
        Regroup(f0, before.fired, Tick(before.clock, keeper.period).fired);
        EncodeFramesSnoc(out, f);
        LoggedSnoc(old(leftRaw), old(rightRaw), out, f);
        bytes := bytes + EncodeFrame(f);
      }
      assert l0 == old(left.State());
      assert r0 == old(right.State());
      assert c0.time == old(keeper.time);
    }

    /** One turn of `frames`' first loop: the oldest queued frame taken off
        the queue and logged. */
    method Dequeue() returns (f: Frame)
      requires Valid() && queue != []
      modifies this
      ensures Valid() && left.State() == old(left.State()) && right.State() == old(right.State())
      ensures [f] + queue == old(queue)
      ensures leftRaw == old(leftRaw) + [f.0] && rightRaw == old(rightRaw) + [f.1]
    {
      f := queue[0];
      queue := queue[1..];
      leftRaw := leftRaw + [f.0];
      rightRaw := rightRaw + [f.1];
      StateKept(left);
      StateKept(right);
    }

    /** One turn of `frames`' second loop: a frame computed and logged. */
    method Emit() returns (f: Frame)
      requires Valid()
      modifies this, left, right, keeper
      ensures Valid()
      ensures var p := old(Pulse(Step, left.State(), right.State(), keeper.time));
              [f] == p.frames && left.State() == p.left && right.State() == p.right
      ensures var t := Tick(old(keeper.State()), keeper.period);
              keeper.State() == t.clock && keeper.fired == old(keeper.fired) + t.fired
      ensures queue == old(queue) && leftRaw == old(leftRaw) + [f.0] && rightRaw == old(rightRaw) + [f.1]
    {
      f := Next();
      Record(f);
    }

    /** The `left_raw` and `right_raw` appends for a frame handed out. */
    method Record(f: Frame)
      requires Valid()
      modifies this
      ensures Valid() && left.State() == old(left.State()) && right.State() == old(right.State())
      ensures queue == old(queue) && leftRaw == old(leftRaw) + [f.0] && rightRaw == old(rightRaw) + [f.1]
    {
      leftRaw := leftRaw + [f.0];
      rightRaw := rightRaw + [f.1];
      StateKept(left);
      StateKept(right);
    }
  }
}
