/** The sample clock (quasimoto/sampler/time.py). A `TimeKeeper` holds the
    current time, the number of the sample it is at, and a schedule of
    callbacks keyed by sample number. `advance` moves one sample period
    forward and runs, in registration order, the callbacks scheduled for the
    sample it arrives at.

    Callbacks are opaque here: each is identified by a number, and running one
    is recorded as a `Firing` with the time it was called with. The
    `PeriodMixin` conversions are the functions `Period`, `SampleNumber` and
    `NumSamples`. */
module TimeKeepers {
  import opened Reals
  import opened Outcomes

  /** The default sample rate the keeper shares with the WAVE writer. */
  const DefaultSampleRate: int := 44100

  type Callback = nat

  /** A callback run, with the time it was passed. */
  datatype Firing = Firing(callback: Callback, time: real)

  /** Callbacks waiting to run, by sample number, in registration order. */
  type Schedule = map<int, seq<Callback>>

  /** What the keeper holds besides its constants. */
  datatype Clock = Clock(time: real, iteration: int, callbacks: Schedule)

  /** A clock after some ticks and the callbacks run on the way. */
  datatype Ticked = Ticked(clock: Clock, fired: seq<Firing>)

  /** `period`: the length of one sample, `1 / sample_rate`. */
  function Period(sampleRate: int): (p: real)
    requires sampleRate != 0
    ensures p * sampleRate as real == 1.0
    ensures sampleRate > 0 ==> p > 0.0
  {
    1.0 / sampleRate as real
  }

  /** `sample_number(time)`: `int(time / period)`, truncating toward zero. */
  function SampleNumber(time: real, period: real): (n: int)
    requires period != 0.0
    ensures time / period >= 0.0 ==> 0 <= n && n as real <= time / period < n as real + 1.0
    ensures time / period < 0.0 ==> n <= 0 && n as real - 1.0 < time / period <= n as real
  {
    Trunc(time / period)
  }

  /** `num_samples(duration)`: `int(duration * sample_rate)`, truncating
      toward zero. */
  function NumSamples(duration: real, sampleRate: int): (n: int)
    ensures duration * sampleRate as real >= 0.0 ==>
              0 <= n && n as real <= duration * sampleRate as real < n as real + 1.0
    ensures duration * sampleRate as real < 0.0 ==>
              n <= 0 && n as real - 1.0 < duration * sampleRate as real <= n as real
  {
    Trunc(duration * sampleRate as real)
  }

  /** In exact arithmetic the two conversions agree: dividing by the period
      is multiplying by the rate. */
  lemma SampleNumberIsNumSamples(time: real, sampleRate: int)
    requires sampleRate != 0
    ensures SampleNumber(time, Period(sampleRate)) == NumSamples(time, sampleRate)
  {
    var r := sampleRate as real;
    assert time / (1.0 / r) == time * r;
  }

  /** Every list in the schedule holds at least one callback: lists are only
      created by appending to them. */
  ghost predicate NonEmptyLists(s: Schedule) {
    forall k :: k in s ==> s[k] != []
  }

  /** The schedule with `cb` appended to the list of sample `index`, the list
      created if absent; every other entry is unchanged. */
  function Scheduled(s: Schedule, index: int, cb: Callback): (r: Schedule)
    ensures NonEmptyLists(s) ==> NonEmptyLists(r)
  {
    s[index := (if index in s then s[index] else []) + [cb]]
  }

  /** `call_at(time, callback)`: the time must be strictly after the clock's;
      the callback is filed under the sample number of `time`. */
  function ScheduleAt(c: Clock, sampleRate: int, time: real, cb: Callback): (r: Result<Clock>)
    ensures r.Fail? <==> time <= c.time
    ensures r.Fail? ==> r.error == NotFuture
    ensures r.Ok? ==> r.value.time == c.time && r.value.iteration == c.iteration
    ensures r.Ok? ==> r.value.callbacks == Scheduled(c.callbacks, NumSamples(time, sampleRate), cb)
  {
    if !(time > c.time) then Fail(NotFuture)
    else Ok(c.(callbacks := Scheduled(c.callbacks, NumSamples(time, sampleRate), cb)))
  }

  /** A clock after `call_sequence` (possibly stopped part way) and whether
      every step was accepted. */
  datatype Sequenced = Sequenced(clock: Clock, outcome: Result<()>)

  /** `call_sequence(*callbacks)` from a running time `curr`: each callback is
      registered `offset` after the previous one's time. The first refused
      registration stops the sequence and the ones before it stay. */
  function ScheduleSequence(c: Clock, sampleRate: int, curr: real, items: seq<(real, Callback)>): (r: Sequenced)
    decreases |items|
    ensures r.clock.time == c.time && r.clock.iteration == c.iteration
    ensures r.outcome.Fail? ==> r.outcome.error == NotFuture
    ensures NonEmptyLists(c.callbacks) ==> NonEmptyLists(r.clock.callbacks)
  {
    if items == [] then Sequenced(c, Ok(()))
    else
      match ScheduleAt(c, sampleRate, curr + items[0].0, items[0].1)
      case Fail(e) => Sequenced(c, Fail(e))
      case Ok(c') => ScheduleSequence(c', sampleRate, curr + items[0].0, items[1..])
  }

  /** The absolute times a sequence asks for: each offset added to the
      previous time. */
  function CumulativeTimes(curr: real, items: seq<(real, Callback)>): (ts: seq<real>)
    decreases |items|
    ensures |ts| == |items|
    ensures items != [] ==> ts[0] == curr + items[0].0
    ensures forall k :: 0 < k < |ts| ==> ts[k] == ts[k - 1] + items[k].0
  {
    if items == [] then []
    else
      var rest := CumulativeTimes(curr + items[0].0, items[1..]);
      [curr + items[0].0] + rest
  }

  /** Registering each callback at an absolute time, one after the other,
      stopping at the first refusal. */
  function ScheduleEach(c: Clock, sampleRate: int, times: seq<real>, cbs: seq<Callback>): (r: Sequenced)
    requires |times| == |cbs|
    decreases |times|
  {
    if times == [] then Sequenced(c, Ok(()))
    else
      match ScheduleAt(c, sampleRate, times[0], cbs[0])
      case Fail(e) => Sequenced(c, Fail(e))
      case Ok(c') => ScheduleEach(c', sampleRate, times[1..], cbs[1..])
  }

  function Callbacks(items: seq<(real, Callback)>): (cbs: seq<Callback>)
    ensures |cbs| == |items| && forall k :: 0 <= k < |items| ==> cbs[k] == items[k].1
  {
    seq(|items|, k requires 0 <= k < |items| => items[k].1)
  }

  /** A call sequence is the same as `call_at` at each cumulative time. */
  lemma {:induction false} SequenceIsCallAts(c: Clock, sampleRate: int, curr: real, items: seq<(real, Callback)>)
    ensures ScheduleSequence(c, sampleRate, curr, items)
         == ScheduleEach(c, sampleRate, CumulativeTimes(curr, items), Callbacks(items))
    decreases |items|
  {
    if items != [] {
      var ts := CumulativeTimes(curr, items);
      assert ts[1..] == CumulativeTimes(curr + items[0].0, items[1..]);
      assert Callbacks(items)[1..] == Callbacks(items[1..]);
      match ScheduleAt(c, sampleRate, curr + items[0].0, items[0].1)
      case Fail(e) =>
      case Ok(c') =>
        SequenceIsCallAts(c', sampleRate, curr + items[0].0, items[1..]);
    }
  }

  /** A call sequence is accepted in full exactly when every cumulative time
      is after the clock's time; the offsets themselves may be negative. */
  lemma {:induction false} SequenceAccepted(c: Clock, sampleRate: int, times: seq<real>, cbs: seq<Callback>)
    requires |times| == |cbs|
    ensures ScheduleEach(c, sampleRate, times, cbs).outcome.Ok?
        <==> forall k :: 0 <= k < |times| ==> times[k] > c.time
    decreases |times|
  {
    if times != [] {
      match ScheduleAt(c, sampleRate, times[0], cbs[0])
      case Fail(e) =>
      case Ok(c') =>
        SequenceAccepted(c', sampleRate, times[1..], cbs[1..]);
        assert forall k :: 0 < k < |times| ==> times[k] == times[1..][k - 1];
    }
  }

  /** The callbacks of a list run at time `t`, in order. */
  function FiringsOf(cbs: seq<Callback>, t: real): (r: seq<Firing>)
    ensures |r| == |cbs|
  {
    seq(|cbs|, k requires 0 <= k < |cbs| => Firing(cbs[k], t))
  }

  /** `advance()`: one period later and one sample on; the callbacks of the
      new sample run with the new time and their list is dropped. An absent
      or empty list runs nothing and is left in place. */
  function Tick(c: Clock, period: real): Ticked
  {
    var time := c.time + period;
    var iteration := c.iteration + 1;
    if iteration in c.callbacks && c.callbacks[iteration] != [] then
      Ticked(Clock(time, iteration, c.callbacks - {iteration}), FiringsOf(c.callbacks[iteration], time))
    else
      Ticked(Clock(time, iteration, c.callbacks), [])
  }

  /** `n` calls of `advance()`, with everything they ran. */
  function Ticks(c: Clock, period: real, n: nat): (r: Ticked)
  {
    if n == 0 then Ticked(c, [])
    else
      var before := Ticks(c, period, n - 1);
      var t := Tick(before.clock, period);
      Ticked(t.clock, before.fired + t.fired)
  }

  /** What ticks `1..n` after sample `it` at time `t0` run: each sample's
      list, at that sample's time. */
  function Fired(s: Schedule, it: int, t0: real, period: real, n: nat): (r: seq<Firing>)
  {
    if n == 0 then []
    else
      Fired(s, it, t0, period, n - 1) + Due(s, it + n, t0 + n as real * period)
  }

  /** The schedule less the samples `it + 1 .. it + n`. */
  function Remaining(s: Schedule, it: int, n: nat): Schedule
  {
    map k | k in s && !(it < k <= it + n) :: s[k]
  }

  lemma StepTime(t0: real, period: real, n: nat)
    requires n > 0
    ensures t0 + (n - 1) as real * period + period == t0 + n as real * period
  {
  }

  /** Passing sample `it + n` takes exactly its entry out of what is left. */
  lemma RemainingStep(s: Schedule, it: int, n: nat)
    requires n > 0
    ensures var before := Remaining(s, it, n - 1);
            && (it + n in before <==> it + n in s)
            && (it + n in s ==> before[it + n] == s[it + n])
            && before - {it + n} == Remaining(s, it, n)
            && (it + n !in s ==> before == Remaining(s, it, n))
  {
  }

  /** The list due at sample `i`, run at time `t`. */
  function Due(s: Schedule, i: int, t: real): (r: seq<Firing>)
    ensures i in s ==> |r| == |s[i]|
    ensures i !in s ==> r == []
  {
    if i in s then FiringsOf(s[i], t) else []
  }

  /** One more tick after `n - 1` of them. */
  lemma TickAfter(s: Schedule, it: int, t0: real, period: real, n: nat, clock: Clock)
    requires n > 0 && NonEmptyLists(s)
    requires clock == Clock(t0 + (n - 1) as real * period, it + (n - 1), Remaining(s, it, n - 1))
    ensures Tick(clock, period)
         == Ticked(Clock(t0 + n as real * period, it + n, Remaining(s, it, n)), Due(s, it + n, t0 + n as real * period))
  {
    RemainingStep(s, it, n);
    StepTime(t0, period, n);
  }

  /** After `n` ticks the clock is `n` periods and `n` samples on, every list
      of the samples passed has run, in sample order, at its sample's time,
      and those lists are gone; the rest of the schedule is untouched. */
  lemma TicksSpec(c: Clock, period: real, n: nat)
    requires NonEmptyLists(c.callbacks)
    ensures Ticks(c, period, n).clock
         == Clock(c.time + n as real * period, c.iteration + n, Remaining(c.callbacks, c.iteration, n))
    ensures Ticks(c, period, n).fired == Fired(c.callbacks, c.iteration, c.time, period, n)
  {
    TicksAsDescribed(c, period, n);
  }

  /** What `TicksSpec` states about `n` ticks. */
  ghost predicate TickedAsDescribed(c: Clock, period: real, n: nat)
  {
    && Ticks(c, period, n).clock
       == Clock(c.time + n as real * period, c.iteration + n, Remaining(c.callbacks, c.iteration, n))
    && Ticks(c, period, n).fired == Fired(c.callbacks, c.iteration, c.time, period, n)
  }

  lemma {:induction false} TicksAsDescribed(c: Clock, period: real, n: nat)
    requires NonEmptyLists(c.callbacks)
    ensures TickedAsDescribed(c, period, n)
  {
    if n == 0 {
      assert Remaining(c.callbacks, c.iteration, 0) == c.callbacks;
    } else {
      TicksAsDescribed(c, period, n - 1);
      TicksSpecStep(c, period, n);
    }
  }

  /** The inductive step: one tick after `n - 1` of them. */
  lemma TicksSpecStep(c: Clock, period: real, n: nat)
    requires n > 0 && NonEmptyLists(c.callbacks) && TickedAsDescribed(c, period, n - 1)
    ensures TickedAsDescribed(c, period, n)
  {
    var before := Ticks(c, period, n - 1);
    TicksUnfold(c, period, n - 1);
    TickedAfter(c, period, n, before);
  }

  /** One tick on from the description of `n - 1` ticks gives that of `n`. */
  lemma TickedAfter(c: Clock, period: real, n: nat, before: Ticked)
    requires n > 0 && NonEmptyLists(c.callbacks)
    requires before.clock == Clock(c.time + (n - 1) as real * period, c.iteration + (n - 1), Remaining(c.callbacks, c.iteration, n - 1))
    requires before.fired == Fired(c.callbacks, c.iteration, c.time, period, n - 1)
    ensures var t := Tick(before.clock, period);
            && t.clock == Clock(c.time + n as real * period, c.iteration + n, Remaining(c.callbacks, c.iteration, n))
            && before.fired + t.fired == Fired(c.callbacks, c.iteration, c.time, period, n)
  {
    TickAfter(c.callbacks, c.iteration, c.time, period, n, before.clock);
  }

  /** The first step of a call sequence. */
  lemma SequenceStep(c: Clock, sampleRate: int, curr: real, items: seq<(real, Callback)>, offset: real, cb: Callback)
    requires items != [] && items[0] == (offset, cb)
    ensures ScheduleAt(c, sampleRate, curr + offset, cb).Fail? ==>
              ScheduleSequence(c, sampleRate, curr, items) == Sequenced(c, Fail(NotFuture))
    ensures ScheduleAt(c, sampleRate, curr + offset, cb).Ok? ==>
              ScheduleSequence(c, sampleRate, curr, items)
              == ScheduleSequence(ScheduleAt(c, sampleRate, curr + offset, cb).value, sampleRate, curr + offset, items[1..])
  {
  }

  /** A callback filed under a sample the clock has already reached never
      runs, however far the clock goes: `call_at` only checks the time, so a
      time inside the current sample is accepted and then lost. */
  lemma {:induction false} BehindNeverFires(s: Schedule, it: int, t0: real, period: real, n: nat, index: int, cb: Callback)
    requires index <= it
    ensures Fired(Scheduled(s, index, cb), it, t0, period, n) == Fired(s, it, t0, period, n)
  {
    if n > 0 {
      BehindNeverFires(s, it, t0, period, n - 1, index, cb);
    }
  }

  /** A callback filed under a sample ahead of the clock runs when the clock
      reaches that sample, with that sample's time. */
  lemma {:induction false} AheadFires(s: Schedule, it: int, t0: real, period: real, n: nat, index: int, cb: Callback)
    requires it < index <= it + n
    ensures Firing(cb, t0 + (index - it) as real * period) in Fired(Scheduled(s, index, cb), it, t0, period, n)
  {
    var s' := Scheduled(s, index, cb);
    if index == it + n {
      var t := t0 + n as real * period;
      var due := Due(s', index, t);
      DueHasLast(s, index, cb, t);
      assert Fired(s', it, t0, period, n) == Fired(s', it, t0, period, n - 1) + due;
      assert t0 + (index - it) as real * period == t;
    } else {
      AheadFires(s, it, t0, period, n - 1, index, cb);
    }
  }

  /** The list due at a sample runs the callback filed last under it. */
  lemma DueHasLast(s: Schedule, index: int, cb: Callback, t: real)
    ensures Firing(cb, t) in Due(Scheduled(s, index, cb), index, t)
  {
    var cbs := Scheduled(s, index, cb)[index];
    var due := Due(Scheduled(s, index, cb), index, t);
    assert cbs[|cbs| - 1] == cb;
    assert due[|cbs| - 1] == Firing(cb, t);
  }

  /** From a time at or after zero with a positive period, the iteration
      count stays the sample number of the time. */
  lemma TickKeepsSampleNumber(c: Clock, period: real)
    requires c.time >= 0.0 && period > 0.0 && c.iteration == SampleNumber(c.time, period)
    ensures Tick(c, period).clock.iteration == SampleNumber(Tick(c, period).clock.time, period)
  {
    var x := c.time / period;
    DivShift(c.time, period);
    NonNegativeQuotient(c.time, period);
    TruncShift(x, 1);
  }

  lemma DivShift(t: real, p: real)
    requires p != 0.0
    ensures (t + p) / p == t / p + 1.0
  {
    var q := t / p;
    var q' := (t + p) / p;
    assert q * p == t;
    assert q' * p == t + p;
    assert (q + 1.0) * p == t + p;
    MulCancel(q', q + 1.0, p);
  }

  lemma MulCancel(a: real, b: real, p: real)
    requires p != 0.0 && a * p == b * p
    ensures a == b
  {
    assert (a - b) * p == 0.0;
  }

  lemma NonNegativeQuotient(t: real, p: real)
    requires t >= 0.0 && p > 0.0
    ensures t / p >= 0.0
  {
  }

  lemma {:induction false} TicksKeepSampleNumber(c: Clock, period: real, n: nat)
    requires c.time >= 0.0 && period > 0.0 && c.iteration == SampleNumber(c.time, period)
    ensures Ticks(c, period, n).clock.iteration == SampleNumber(Ticks(c, period, n).clock.time, period)
    ensures Ticks(c, period, n).clock.time >= c.time
  {
    if n > 0 {
      TicksKeepSampleNumber(c, period, n - 1);
      TickKeepsSampleNumber(Ticks(c, period, n - 1).clock, period);
    }
  }

  /** Starting inside the sample before zero breaks that: the clock counts
      one sample ahead of the sample number of its time after one tick. */
  lemma NegativeStartDrifts()
    ensures var c := Clock(-0.5, SampleNumber(-0.5, 1.0), map[]);
            && c.iteration == 0
            && Tick(c, 1.0).clock.iteration == 1
            && SampleNumber(Tick(c, 1.0).clock.time, 1.0) == 0
  {
  }

  /** The clock's time after `k` calls of `advance()` from `t0`. */
  function PullTime(t0: real, period: real, k: nat): real
  {
    if k == 0 then t0 else PullTime(t0, period, k - 1) + period
  }

  /** The time after `k` advances is `k` periods after the start. */
  lemma {:induction false} PullTimeIs(t0: real, period: real, k: nat)
    ensures PullTime(t0, period, k) == t0 + k as real * period
  {
    if k > 0 {
      PullTimeIs(t0, period, k - 1);
      assert (k - 1) as real * period + period == k as real * period;
    }
  }

  /** With a positive period the clock only moves forward. */
  lemma {:induction false} PullTimeIncreasing(t0: real, period: real, j: nat, k: nat)
    requires period > 0.0 && j < k
    ensures PullTime(t0, period, j) < PullTime(t0, period, k)
  {
    if j < k - 1 {
      PullTimeIncreasing(t0, period, j, k - 1);
    }
  }

  /** Advancing `a + j` times is advancing `a`, then `j` times. */
  lemma {:induction false} PullTimeAdd(t0: real, period: real, a: nat, j: nat)
    ensures PullTime(PullTime(t0, period, a), period, j) == PullTime(t0, period, a + j)
  {
    if j > 0 {
      PullTimeAdd(t0, period, a, j - 1);
    }
  }

  /** One more call of `advance()`. */
  lemma TicksUnfold(c: Clock, period: real, n: nat)
    ensures var before := Ticks(c, period, n);
            var t := Tick(before.clock, period);
            Ticks(c, period, n + 1) == Ticked(t.clock, before.fired + t.fired)
  {
  }

  /** The keeper's time after `n` advances is that of `n` advances. */
  lemma {:induction false} TicksTime(c: Clock, period: real, n: nat)
    ensures Ticks(c, period, n).clock.time == PullTime(c.time, period, n)
  {
    if n > 0 {
      TicksTime(c, period, n - 1);
    }
  }

  class TimeKeeper {
    const sampleRate: int
    const period: real
    var time: real
    var iteration: int
    var callbacks: Schedule
    /** Every callback run so far, in order. */
    var fired: seq<Firing>

    ghost predicate Valid()
      reads this
    {
      sampleRate != 0 && period == Period(sampleRate) && NonEmptyLists(callbacks)
    }

    function State(): Clock
      reads this
    {
      Clock(time, iteration, callbacks)
    }

    /** `TimeKeeper(time, sample_rate)`: the iteration starts at the sample
        number of the time, with nothing scheduled. */
    constructor (time: real, sampleRate: int)
      requires sampleRate != 0
      ensures Valid() && this.sampleRate == sampleRate
      ensures State() == Clock(time, SampleNumber(time, Period(sampleRate)), map[]) && fired == []
    {
      this.sampleRate := sampleRate;
      this.period := Period(sampleRate);
      this.time := time;
      this.iteration := SampleNumber(time, Period(sampleRate));
      this.callbacks := map[];
      this.fired := [];
    }

    /** `call_at(time, callback)`. */
    method CallAt(t: real, cb: Callback) returns (r: Result<()>)
      requires Valid()
      modifies this
      ensures Valid() && fired == old(fired)
      ensures var c := ScheduleAt(old(State()), sampleRate, t, cb);
              && (c.Fail? ==> r == Fail(c.error) && State() == old(State()))
              && (c.Ok? ==> r == Ok(()) && State() == c.value)
    {
      if !(t > time) {
        return Fail(NotFuture);
      }
      var index := NumSamples(t, sampleRate);
      if index !in callbacks {
        callbacks := callbacks[index := []];
      }
      callbacks := callbacks[index := callbacks[index] + [cb]];
      r := Ok(());
    }

    /** `call_in(offset, callback)`: `call_at(time + offset)`, returning
        that time. */
    method CallIn(offset: real, cb: Callback) returns (r: Result<real>)
      requires Valid()
      modifies this
      ensures Valid() && fired == old(fired)
      ensures var c := ScheduleAt(old(State()), sampleRate, old(time) + offset, cb);
              && (c.Fail? ==> r == Fail(NotFuture) && State() == old(State()))
              && (c.Ok? ==> r == Ok(old(time) + offset) && State() == c.value)
      ensures r.Ok? <==> offset > 0.0
    {
      var callTime := time + offset;
      var registered := CallAt(time + offset, cb);
      if registered.Fail? {
        return Fail(registered.error);
      }
      r := Ok(callTime);
    }

    /** `call_sequence(*callbacks)`. */
    method CallSequence(items: seq<(real, Callback)>) returns (r: Result<()>)
      requires Valid()
      modifies this
      ensures Valid() && fired == old(fired)
      ensures var q := ScheduleSequence(old(State()), sampleRate, old(time), items);
              State() == q.clock && r == q.outcome
    {
      var curr := time;
      ghost var goal := ScheduleSequence(State(), sampleRate, curr, items);
      var i := 0;
      while i < |items|
        invariant 0 <= i <= |items|
        invariant fired == old(fired)
        invariant Sequencing(goal, curr, items[i..])
      {
        var registered, next := SequenceNext(goal, curr, items[i..]);
        if registered.Fail? {
          return registered;
        }
        assert items[i..][1..] == items[i + 1..];
        curr := next;
        i := i + 1;
      }
      r := Ok(());
    }

    /** Registering the rest `rest` of a sequence from `curr` ends in `goal`. */
    ghost predicate Sequencing(goal: Sequenced, curr: real, rest: seq<(real, Callback)>)
      reads this
    {
      Valid() && ScheduleSequence(State(), sampleRate, curr, rest) == goal
    }

    /** One step of `call_sequence`: register the first of `rest`; a refusal
        leaves the clock as the whole sequence leaves it. */
    method SequenceNext(ghost goal: Sequenced, curr: real, rest: seq<(real, Callback)>)
      returns (r: Result<()>, next: real)
      requires rest != [] && Sequencing(goal, curr, rest)
      modifies this
      ensures fired == old(fired)
      ensures r.Fail? ==> Valid() && State() == goal.clock && r == goal.outcome
      ensures r.Ok? ==> next == curr + rest[0].0 && Sequencing(goal, next, rest[1..])
    {
      var (offset, cb) := rest[0];
      SequenceStep(State(), sampleRate, curr, rest, offset, cb);
      r := CallAt(curr + offset, cb);
      next := curr + offset;
    }

    /** `advance()`. */
    method Advance()
      requires Valid()
      modifies this
      ensures Valid() && time == old(time) + period && iteration == old(iteration) + 1
      ensures var t := Tick(old(State()), period);
              State() == t.clock && fired == old(fired) + t.fired
    {
      var now := time + period;
      var next := iteration + 1;
      time := now;
      iteration := next;
      if next in callbacks && callbacks[next] != [] {
        var due := callbacks[next];
        var log := fired;
        for k := 0 to |due|
          invariant log == fired + FiringsOf(due[..k], now)
        {
          assert FiringsOf(due[..k + 1], now) == FiringsOf(due[..k], now) + [Firing(due[k], now)];
          log := log + [Firing(due[k], now)];
        }
        assert due[..|due|] == due;
        fired := log;
        callbacks := callbacks - {next};
      }
    }

    /** `copy()`: a new keeper at the same time and rate, whose iteration is
        recomputed from the time, holding the same schedule. */
    method Copy() returns (k: TimeKeeper)
      requires Valid()
      ensures fresh(k) && k.Valid() && k.sampleRate == sampleRate && k.fired == []
      ensures k.State() == Clock(time, SampleNumber(time, period), callbacks)
    {
      k := new TimeKeeper(time, sampleRate);
      k.callbacks := callbacks;
    }
  }

  /** A copy made when the iteration is the sample number of the time, as it
      is for a keeper started at a time at or after zero with a positive rate,
      is in the same state as the original. */
  lemma CopyKeepsState(c: Clock, period: real)
    requires period != 0.0 && c.iteration == SampleNumber(c.time, period)
    ensures Clock(c.time, SampleNumber(c.time, period), c.callbacks) == c
  {
  }
}
