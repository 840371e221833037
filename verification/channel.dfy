/** The signal channel (quasimoto/sampler/channel.py): a source that mixes
    any number of named sources on the same time keeper. Each value pulls
    every enabled source once, averages the contributions of those that
    delivered a sample, scales by the channel's amplitude and truncates;
    enabled sources found exhausted are dropped from the registry afterwards.
    Registry operations report failure through a `SignalOperationResult`
    rather than by raising.

    The registry is a dictionary, so its names keep insertion order:
    `names` is that order and `sources` the mapping. */
module Channels {
  import opened Reals
  import opened Outcomes
  import opened WaveEnums
  import opened TimeKeepers
  import opened Parameters
  import opened Sources
  import Samplers

  // ---------------------------------------------------------------- results

  /** `SignalOperationResult`: a status and a message. */
  datatype OperationResult = OperationResult(status: bool, message: string)

  /** `SUCCESS`. */
  const Success: OperationResult := OperationResult(true, "")

  function Duplicate(name: string): OperationResult {
    OperationResult(false, "Duplicate source '" + name + "'.")
  }

  const DifferentKeepers: OperationResult := OperationResult(false, "Sources use different time keepers!")

  function NoSource(name: string): OperationResult {
    OperationResult(false, "No source '" + name + "'.")
  }

  /** `bool(result)`. */
  predicate Truthy(r: OperationResult) {
    r.status
  }

  /** Only `SUCCESS` is truthy, and it carries no message. */
  lemma OnlySuccessTruthy(name: string)
    ensures Truthy(Success) && Success.message == ""
    ensures !Truthy(Duplicate(name)) && !Truthy(DifferentKeepers) && !Truthy(NoSource(name))
  {
  }

  // ---------------------------------------------------------------- names

  /** `str.lower()` on ASCII letters. */
  function Lower(s: string): (r: string)
    ensures |r| == |s|
    ensures forall i :: 0 <= i < |s| ==> !('A' <= r[i] <= 'Z')
    ensures forall i :: 0 <= i < |s| && !('A' <= s[i] <= 'Z') ==> r[i] == s[i]
  {
    seq(|s|, i requires 0 <= i < |s| => if 'A' <= s[i] <= 'Z' then (s[i] as int + 32) as char else s[i])
  }

  /** Lowering twice is lowering once. */
  lemma LowerIdempotent(s: string)
    ensures Lower(Lower(s)) == Lower(s)
  {
    var l := Lower(s);
    assert forall i :: 0 <= i < |l| ==> Lower(l)[i] == l[i];
  }

  predicate Distinct(ns: seq<string>) {
    forall i, j :: 0 <= i < j < |ns| ==> ns[i] != ns[j]
  }

  function Elems(ns: seq<string>): (r: set<string>)
    ensures forall x :: x in r <==> x in ns
  {
    set x | x in ns
  }

  /** The names in order with those in `gone` taken out: what deleting
      them from a dictionary leaves. */
  function Without(ns: seq<string>, gone: set<string>): (r: seq<string>)
    ensures forall x :: x in r <==> x in ns && x !in gone
    ensures Distinct(ns) ==> Distinct(r)
  {
    if ns == [] then []
    else
      var init := ns[..|ns| - 1];
      var x := ns[|ns| - 1];
      assert ns == init + [x];
      var rest := Without(init, gone);
      if x in gone then rest else rest + [x]
  }

  /** Deleting names one after the other is deleting them together. */
  lemma {:induction false} WithoutTwice(ns: seq<string>, gone: set<string>, x: string)
    ensures Without(Without(ns, gone), {x}) == Without(ns, gone + {x})
  {
    if ns != [] {
      var init := ns[..|ns| - 1];
      var y := ns[|ns| - 1];
      WithoutTwice(init, gone, x);
      var w := Without(init, gone);
      if y !in gone {
        assert Without(ns, gone) == w + [y];
        assert (w + [y])[..|w + [y]| - 1] == w;
      }
    }
  }

  /** Deleting a name just appended gives the names back. */
  lemma {:induction false} WithoutAppended(ns: seq<string>, x: string)
    requires x !in ns
    ensures Without(ns + [x], {x}) == ns
  {
    assert (ns + [x])[..|ns|] == ns;
    WithoutNothing(ns, {x});
  }

  lemma {:induction false} WithoutNothing(ns: seq<string>, gone: set<string>)
    requires forall x :: x in ns ==> x !in gone
    ensures Without(ns, gone) == ns
  {
    if ns != [] {
      var init := ns[..|ns| - 1];
      WithoutNothing(init, gone);
      assert ns == init + [ns[|ns| - 1]];
    }
  }

  // ---------------------------------------------------------------- mixing

  /** What the mixing loop reads of a registered source: whether it is
      enabled, its stop time, its amplitude and its value function. */
  datatype SourceView = SourceView(enabled: bool, stopTime: Option<real>, amplitude: real, voice: real -> int)

  function ViewOf(s: Source): (v: SourceView)
    reads s
    ensures v.enabled == s.enabled && v.stopTime == s.stopTime
    ensures v.amplitude == s.amplitude && v.voice == s.voice
  {
    SourceView(s.enabled, s.stopTime, s.amplitude, s.voice)
  }

  /** The registry as the mixing loop sees it. */
  function Views(registry: map<string, Source>): (r: map<string, SourceView>)
    reads registry.Values
    ensures r.Keys == registry.Keys
    ensures forall n :: n in r ==> r[n] == ViewOf(registry[n])
  {
    map n | n in registry :: ViewOf(registry[n])
  }

  /** The view of a registry whose sources did not change is the same. */
  twostate lemma ViewsKept(registry: map<string, Source>)
    requires forall n :: n in registry ==> unchanged(registry[n])
    ensures Views(registry) == old(Views(registry))
  {
    assert forall n :: n in registry ==> Views(registry)[n] == old(Views(registry))[n];
  }

  /** Taking names out of the registry takes them out of its view. */
  lemma ViewsWithout(registry: map<string, Source>, gone: set<string>)
    ensures Views(registry - gone) == Views(registry) - gone
  {
  }

  /** What one pull of a registered source gives the mixer: nothing from a
      disabled source, an exhausted source, or a raw sample together with
      the source's amplitude. */
  datatype Pull = Disabled | Stopped | Sample(raw: int, amplitude: real)

  /** A pull of `s` with the clock at `time`: only enabled sources are
      pulled, and a pull is `next(source, None)`. */
  function PullAt(s: SourceView, time: real): Pull
  {
    if !s.enabled then Disabled
    else if PastStop(s.stopTime, time) then Stopped
    else Sample(s.voice(time), s.amplitude)
  }

  /** The pull for a name; a name with no source behind it, which a
      consistent registry never lists, gives nothing. */
  function PullOf(sources: map<string, SourceView>, name: string, time: real): Pull
  {
    if name in sources then PullAt(sources[name], time) else Disabled
  }

  /** The pulls of the named sources, in dictionary order. */
  function Pulls(names: seq<string>, sources: map<string, SourceView>, time: real): (r: seq<Pull>)
    ensures |r| == |names|
    ensures forall i :: 0 <= i < |names| ==> r[i] == PullOf(sources, names[i], time)
  {
    if names == [] then []
    else Pulls(names[..|names| - 1], sources, time) + [PullOf(sources, names[|names| - 1], time)]
  }

  /** `raw * source.amplitude.value` for a sample, nothing otherwise. */
  function Weight(p: Pull): real {
    if p.Sample? then p.raw as real * p.amplitude else 0.0
  }

  /** The running `value` of the mixing loop. */
  function Total(ps: seq<Pull>): real {
    if ps == [] then 0.0 else Total(ps[..|ps| - 1]) + Weight(ps[|ps| - 1])
  }

  /** The running `contributors` count. */
  function Contributors(ps: seq<Pull>): (k: nat)
    ensures k <= |ps|
  {
    if ps == [] then 0 else Contributors(ps[..|ps| - 1]) + (if ps[|ps| - 1].Sample? then 1 else 0)
  }

  /** The names of the exhausted sources, in dictionary order: `to_remove`. */
  function StoppedNames(names: seq<string>, ps: seq<Pull>): (r: seq<string>)
    requires |names| == |ps|
    ensures forall x :: x in r ==> x in names
    ensures Distinct(names) ==> Distinct(r)
    ensures Distinct(names) ==> forall i :: 0 <= i < |names| ==> (names[i] in r <==> ps[i].Stopped?)
  {
    if names == [] then []
    else
      var k := |names| - 1;
      var rest := StoppedNames(names[..k], ps[..k]);
      assert forall i :: 0 <= i < k ==> names[..k][i] == names[i] && ps[..k][i] == ps[i];
      assert forall x :: x in names[..k] ==> x in names;
      if ps[k].Stopped? then
        assert Distinct(names) ==> names[k] !in names[..k];
        rest + [names[k]]
      else rest
  }

  /** The mixed value: the weighted samples summed, divided by their number
      when there are more than one, scaled by the channel's amplitude and
      truncated toward zero. */
  function MixOf(ps: seq<Pull>, amplitude: real): int {
    Mixed(Total(ps), Contributors(ps), amplitude)
  }

  /** `int(value * amplitude)` after averaging over `k` contributors. */
  function Mixed(total: real, k: nat, amplitude: real): int {
    Scaled(Average(total, k), amplitude)
  }

  /** `int(value * amplitude)`. */
  function Scaled(value: real, amplitude: real): int {
    Trunc(value * amplitude)
  }

  /** `value /= contributors` when there is more than one contributor. */
  function Average(total: real, k: nat): real {
    if k > 1 then total / k as real else total
  }

  /** With no contributing source the channel is silent. */
  lemma {:induction false} MixSilent(ps: seq<Pull>, amplitude: real)
    requires Contributors(ps) == 0
    ensures MixOf(ps, amplitude) == 0
  {
    TotalSilent(ps);
  }

  lemma {:induction false} TotalSilent(ps: seq<Pull>)
    requires Contributors(ps) == 0
    ensures Total(ps) == 0.0
  {
    if ps != [] {
      TotalSilent(ps[..|ps| - 1]);
    }
  }

  lemma {:induction false} ContributorsCount(ps: seq<Pull>, i: nat)
    requires i < |ps| && ps[i].Sample?
    ensures Contributors(ps) >= 1
  {
    if i < |ps| - 1 {
      ContributorsCount(ps[..|ps| - 1], i);
    }
  }

  /** With a single contributor the value is that source's sample, scaled
      by its amplitude and the channel's, undivided. */
  lemma {:induction false} MixSingle(ps: seq<Pull>, amplitude: real, i: nat)
    requires Contributors(ps) == 1 && i < |ps| && ps[i].Sample?
    ensures MixOf(ps, amplitude) == Trunc(ps[i].raw as real * ps[i].amplitude * amplitude)
  {
    TotalSingle(ps, i);
    var w := Weight(ps[i]);
    assert MixOf(ps, amplitude) == Mixed(Total(ps), 1, amplitude);
    assert Mixed(w, 1, amplitude) == Scaled(w, amplitude);
  }

  lemma {:induction false} TotalSingle(ps: seq<Pull>, i: nat)
    requires Contributors(ps) == 1 && i < |ps| && ps[i].Sample?
    ensures Total(ps) == Weight(ps[i])
  {
    var init := ps[..|ps| - 1];
    if i == |ps| - 1 {
      TotalSilent(init);
    } else {
      assert init[i] == ps[i];
      ContributorsCount(init, i);
      TotalSingle(init, i);
    }
  }

  /** Sources weigh equally: when every contribution is the same `x`, the
      channel gives `x` scaled by its amplitude, however many contribute. */
  lemma {:induction false} MixEqualWeight(ps: seq<Pull>, amplitude: real, x: real)
    requires Contributors(ps) >= 1
    requires forall i :: 0 <= i < |ps| && ps[i].Sample? ==> Weight(ps[i]) == x
    ensures MixOf(ps, amplitude) == Trunc(x * amplitude)
  {
    TotalEqual(ps, x);
    AverageOfEqual(Total(ps), Contributors(ps), x);
    var average := Average(Total(ps), Contributors(ps));
    assert MixOf(ps, amplitude) == Scaled(average, amplitude);
  }

  /** `k` equal contributions of `x` average to `x`. */
  lemma AverageOfEqual(total: real, k: nat, x: real)
    requires k >= 1 && total == Times(k, x)
    ensures Average(total, k) == x
  {
    TimesIsProduct(k, x);
    if k > 1 {
      assert x * (k as real) == total;
      DivUnique(total, k as real, x);
    }
  }

  lemma {:induction false} TotalEqual(ps: seq<Pull>, x: real)
    requires forall i :: 0 <= i < |ps| && ps[i].Sample? ==> Weight(ps[i]) == x
    ensures Total(ps) == Times(Contributors(ps), x)
  {
    if ps != [] {
      var init := ps[..|ps| - 1];
      assert forall i :: 0 <= i < |init| ==> init[i] == ps[i];
      TotalEqual(init, x);
    }
  }

  /** The mix never exceeds the largest contribution while the channel's
      amplitude stays within [-1, 1]. */
  lemma {:induction false} MixBounded(ps: seq<Pull>, amplitude: real, b: real)
    requires b >= 0.0 && Abs(amplitude) <= 1.0
    requires forall i :: 0 <= i < |ps| && ps[i].Sample? ==> Abs(Weight(ps[i])) <= b
    ensures Abs(MixOf(ps, amplitude) as real) <= b
  {
    TotalBound(ps, b);
    ScaledAverageBound(Total(ps), Contributors(ps), amplitude, b);
  }

  lemma {:induction false} ScaledAverageBound(total: real, k: nat, amplitude: real, b: real)
    requires b >= 0.0 && Abs(amplitude) <= 1.0 && Abs(total) <= Times(k, b)
    ensures Abs(Mixed(total, k, amplitude) as real) <= b
  {
    AverageAtMost(total, k, b);
    MixedAtMost(total, k, amplitude, b);
  }

  lemma MixedAtMost(total: real, k: nat, amplitude: real, b: real)
    requires Abs(Average(total, k)) <= b && Abs(amplitude) <= 1.0
    ensures Abs(Mixed(total, k, amplitude) as real) <= b
  {
    ScaledTruncAtMost(Average(total, k), amplitude, b);
  }

  lemma AverageAtMost(total: real, k: nat, b: real)
    requires b >= 0.0 && Abs(total) <= Times(k, b)
    ensures Abs(Average(total, k)) <= b
  {
    TimesIsProduct(k, b);
    if k > 1 {
      AverageBound(total, k as real, b);
    } else if k == 1 {
      assert Times(1, b) == b;
    } else {
      assert Times(0, b) == 0.0;
    }
  }

  lemma ScaledTruncAtMost(a: real, amplitude: real, b: real)
    requires Abs(a) <= b && Abs(amplitude) <= 1.0
    ensures Abs(Scaled(a, amplitude) as real) <= b
  {
    Samplers.ScaledAtMost(a, amplitude, a * amplitude);
    Samplers.TruncAtMost(a * amplitude, b);
  }

  lemma {:induction false} TotalBound(ps: seq<Pull>, b: real)
    requires b >= 0.0
    requires forall i :: 0 <= i < |ps| && ps[i].Sample? ==> Abs(Weight(ps[i])) <= b
    ensures Abs(Total(ps)) <= Times(Contributors(ps), b)
  {
    if ps != [] {
      var init := ps[..|ps| - 1];
      var last := ps[|ps| - 1];
      assert forall i :: 0 <= i < |init| ==> init[i] == ps[i];
      TotalBound(init, b);
      if last.Sample? {
        assert Abs(Weight(last)) <= b;
      }
    }
  }

  /** `k` copies of `x` added up. */
  function Times(k: nat, x: real): real {
    if k == 0 then 0.0 else Times(k - 1, x) + x
  }

  lemma {:induction false} TimesIsProduct(k: nat, x: real)
    ensures Times(k, x) == k as real * x
  {
    if k > 0 {
      TimesIsProduct(k - 1, x);
      assert (k - 1) as real * x + x == k as real * x;
    }
  }

  /** A total of at most `k` times `b` averages to at most `b`. */
  lemma {:induction false} AverageBound(total: real, k: real, b: real)
    requires k > 0.0 && Abs(total) <= k * b
    ensures Abs(total / k) <= b
  {
    var a := total / k;
    assert a * k == total;
    if Abs(a) > b {
      MulPositive(Abs(a) - b, k);
      Samplers.AbsProduct(a, k);
    }
  }

  // ---------------------------------------------------------------- registry

  /** What the mixer holds: the registry in dictionary order and the
      channel's amplitude. */
  datatype Mixer = Mixer(names: seq<string>, sources: map<string, SourceView>, amplitude: real)

  /** The names list the keys, each once. */
  ghost predicate Listed(names: seq<string>, keys: set<string>) {
    Distinct(names) && forall n :: n in keys <==> n in names
  }

  /** The order lists the registry's keys, each once. */
  ghost predicate Registered(m: Mixer) {
    Listed(m.names, m.sources.Keys)
  }

  /** Deleting names from both the order and the mapping keeps them in
      step. */
  lemma WithoutRegistered(m: Mixer, gone: set<string>)
    requires Registered(m)
    ensures Registered(Mixer(Without(m.names, gone), m.sources - gone, m.amplitude))
  {
    WithoutListed(m.names, m.sources.Keys, gone);
  }

  lemma {:induction false} WithoutListed(names: seq<string>, keys: set<string>, gone: set<string>)
    requires Listed(names, keys)
    ensures Listed(Without(names, gone), keys - gone)
  {
  }

  /** `value(now)`: the mixed value and the registry left after dropping
      the exhausted sources. `now` is not used: every source reads the same
      clock at `time`. */
  function Step(m: Mixer, time: real): (r: (int, Mixer))
  {
    var ps := Pulls(m.names, m.sources, time);
    var gone := Elems(StoppedNames(m.names, ps));
    (MixOf(ps, m.amplitude), Mixer(Without(m.names, gone), m.sources - gone, m.amplitude))
  }

  /** A step keeps the registry consistent, keeps the amplitude, and keeps
      each remaining source as it was. */
  lemma StepKeeps(m: Mixer, time: real)
    requires Registered(m)
    ensures var r := Step(m, time).1;
            && Registered(r) && r.amplitude == m.amplitude
            && forall n :: n in r.sources ==> n in m.sources && r.sources[n] == m.sources[n]
  {
    var ps := Pulls(m.names, m.sources, time);
    WithoutRegistered(m, Elems(StoppedNames(m.names, ps)));
  }

  /** What the mixing loop computes is one step of the mixer. */
  lemma StepOf(m: Mixer, time: real, v: int, stopped: seq<string>)
    requires Registered(m)
    requires v == MixOf(Pulls(m.names, m.sources, time), m.amplitude)
    requires stopped == StoppedNames(m.names, Pulls(m.names, m.sources, time))
    ensures Distinct(stopped) && forall x :: x in stopped ==> x in m.sources
    ensures Step(m, time) == (v, Mixer(Without(m.names, Elems(stopped)), m.sources - Elems(stopped), m.amplitude))
  {
  }

  /** Lazy pruning: a registered source is dropped exactly when it is
      enabled and past its stop time; disabled sources are never pulled
      and never dropped. */
  lemma {:induction false} StepPrunes(m: Mixer, time: real)
    requires Registered(m)
    ensures var after := Step(m, time).1;
            forall n :: n in m.sources ==>
              (n !in after.sources <==> m.sources[n].enabled && PastStop(m.sources[n].stopTime, time))
  {
    var ps := Pulls(m.names, m.sources, time);
    var stopped := StoppedNames(m.names, ps);
    forall n | n in m.sources
      ensures n in stopped <==> m.sources[n].enabled && PastStop(m.sources[n].stopTime, time)
    {
      var i :| 0 <= i < |m.names| && m.names[i] == n;
      assert ps[i] == PullAt(m.sources[n], time);
    }
  }

  /** The value mixes the pulls of the registered sources in order. */
  lemma {:induction false} StepValue(m: Mixer, time: real)
    requires Registered(m)
    ensures Step(m, time).0 == MixOf(Pulls(m.names, m.sources, time), m.amplitude)
  {
  }

  // ---------------------------------------------------------------- factories

  /** A source class as `register_factory` sees it: its name and the value
      function of the sources it creates. */
  datatype Factory = Factory(className: string, voice: real -> int)

  /** `register_dynamic`'s factory argument: a class, or the name it was
      registered under. */
  datatype FactoryRef = ByClass(factory: Factory) | ByName(key: string)

  /** The `factories` dictionary, an object of its own because copies of a
      channel share it. */
  class FactoryTable {
    var entries: map<string, Factory>

    constructor ()
      ensures entries == map[]
    {
      entries := map[];
    }
  }

  /** One pass of the pulling loop: an enabled source that answers adds
      its weighted sample and one contributor; one that is exhausted has its
      name put aside; a disabled source changes nothing. */
  method PullOne(name: string, source: Source, total: real, contributors: nat, stopped: seq<string>)
      returns (total': real, contributors': nat, stopped': seq<string>)
    ensures var p := PullAt(ViewOf(source), source.keeper.time);
            && total' == total + Weight(p)
            && contributors' == contributors + (if p.Sample? then 1 else 0)
            && stopped' == stopped + (if p.Stopped? then [name] else [])
  {
    total', contributors', stopped' := total, contributors, stopped;
    if source.enabled {
      var raw := source.Next();
      if raw.Ok? {
        contributors' := contributors + 1;
        total' := total + raw.value as real * source.amplitude;
        WeightOf(PullAt(ViewOf(source), source.keeper.time), raw.value, source.amplitude, total, total');
      } else {
        stopped' := stopped + [name];
      }
    }
  }

  /** The mixing part of `value`: the pulls are summed, the sum is divided
      by the number of contributors when there are more than one, scaled
      and truncated. */
  method MixPulls(order: seq<string>, registry: map<string, Source>, keeper: TimeKeeper, amplitude: real)
      returns (v: int, stopped: seq<string>)
    requires forall n :: n in order ==> n in registry && registry[n].keeper == keeper
    ensures v == MixOf(Pulls(order, Views(registry), keeper.time), amplitude)
    ensures stopped == StoppedNames(order, Pulls(order, Views(registry), keeper.time))
  {
    var total, contributors;
    total, contributors, stopped := PullEach(order, registry, keeper);
    ghost var summed := total;
    if contributors > 1 {
      total := total / contributors as real;
    }
    ghost var averaged := total;
    total := total * amplitude;
    v := Trunc(total);
    MixedOf(summed, contributors, amplitude, averaged, total);
  }

  /** The pulling loop of `value`: every registered source is read in
      order at the keeper's time; an enabled source that answers adds its
      weighted sample and counts as a contributor, one that is exhausted is
      put aside for removal, a disabled one is skipped. */
  method PullEach(order: seq<string>, registry: map<string, Source>, keeper: TimeKeeper)
      returns (total: real, contributors: nat, stopped: seq<string>)
    requires forall n :: n in order ==> n in registry && registry[n].keeper == keeper
    ensures var ps := Pulls(order, Views(registry), keeper.time);
            total == Total(ps) && contributors == Contributors(ps) && stopped == StoppedNames(order, ps)
  {
    ghost var ps := Pulls(order, Views(registry), keeper.time);
    total, contributors, stopped := 0.0, 0, [];
    for i := 0 to |order|
      invariant PulledUpTo(order, ps, i, total, contributors, stopped)
    {
      total, contributors, stopped := PullNext(order, registry, keeper, ps, i, total, contributors, stopped);
    }
    assert ps[..|order|] == ps && order[..|order|] == order;
  }

  /** The running sum, count and exhausted names after the first `i` pulls. */
  ghost predicate PulledUpTo(order: seq<string>, ps: seq<Pull>, i: nat, total: real, contributors: nat, stopped: seq<string>)
  {
    && i <= |order| && i <= |ps|
    && total == Total(ps[..i]) && contributors == Contributors(ps[..i])
    && stopped == StoppedNames(order[..i], ps[..i])
  }

  /** One turn of the pulling loop. */
  method PullNext(order: seq<string>, registry: map<string, Source>, keeper: TimeKeeper, ghost ps: seq<Pull>, i: nat,
                  total: real, contributors: nat, stopped: seq<string>)
      returns (total': real, contributors': nat, stopped': seq<string>)
    requires forall n :: n in order ==> n in registry && registry[n].keeper == keeper
    requires ps == Pulls(order, Views(registry), keeper.time) && i < |order|
    requires PulledUpTo(order, ps, i, total, contributors, stopped)
    ensures PulledUpTo(order, ps, i + 1, total', contributors', stopped')
  {
    PullsStep(order, ps, i);
    PullsAt(order, registry, keeper, i);
    total', contributors', stopped' := PullOne(order[i], registry[order[i]], total, contributors, stopped);
  }

  /** Pull `i` of the loop is the pull of the `i`-th named source. */
  lemma PullsAt(order: seq<string>, registry: map<string, Source>, keeper: TimeKeeper, i: nat)
    requires forall n :: n in order ==> n in registry && registry[n].keeper == keeper
    requires i < |order|
    ensures Pulls(order, Views(registry), keeper.time)[i] == PullAt(ViewOf(registry[order[i]]), registry[order[i]].keeper.time)
  {
    assert order[i] in order;
  }

  class SignalChannel {
    const keeper: TimeKeeper
    const params: SourceParameters
    var frequency: real
    var shape: WaveShape
    var stopTime: Option<real>
    var enabled: bool
    var amplitude: real
    var proportion: real
    var factories: FactoryTable
    var names: seq<string>
    var sources: map<string, Source>

    /** The registry is consistent and every registered source runs on the
        channel's own time keeper. */
    ghost predicate Valid()
      reads this
    {
      Listed(names, sources.Keys) && forall n :: n in sources ==> sources[n].keeper == keeper
    }

    /** The mixer this channel is: its registry as the mixing loop sees it,
        and its amplitude. */
    function State(): (m: Mixer)
      reads this, sources.Values
      ensures m.names == names && m.sources.Keys == sources.Keys && m.amplitude == amplitude
    {
      Mixer(names, Views(sources), amplitude)
    }

    /** `SignalChannel(time_keeper, params)`: the source fields as for any
        source, with no factories and no sources. */
    constructor (keeper: TimeKeeper, params: SourceParameters)
      ensures Valid() && fresh(factories) && factories.entries == map[]
      ensures this.keeper == keeper && this.params == params && names == [] && sources == map[]
      ensures frequency == params.frequency && shape == params.shape
      ensures stopTime == if params.duration.Some? then Some(keeper.time + params.duration.value) else params.stopTime
      ensures enabled == params.enabled && amplitude == params.amplitude && proportion == 0.0
    {
      this.keeper := keeper;
      this.params := params;
      frequency := params.frequency;
      shape := params.shape;
      proportion := 0.0;
      stopTime := if params.duration.Some? then Some(keeper.time + params.duration.value) else params.stopTime;
      enabled := params.enabled;
      amplitude := params.amplitude;
      factories := new FactoryTable();
      names := [];
      sources := map[];
    }

    /** `value(now)`: the mixed value of the sources at the keeper's time,
        after which the sources found exhausted are removed. */
    method Value(now: real) returns (v: int)
      requires Valid()
      modifies this
      ensures Valid()
      ensures (v, State()) == old(Step(State(), keeper.time))
      ensures frequency == old(frequency) && shape == old(shape) && stopTime == old(stopTime)
      ensures enabled == old(enabled) && proportion == old(proportion) && factories == old(factories)
    {
      var stopped;
      v, stopped := PullAll();
      Prune(stopped);
    }

    /** The pulling part of `value`, which changes nothing: the mixed value
        and the exhausted names, which are what a step of the mixer drops. */
    method PullAll() returns (v: int, stopped: seq<string>)
      requires Valid()
      ensures Distinct(stopped) && forall x :: x in stopped ==> x in sources
      ensures Step(State(), keeper.time) == (v, Mixer(Without(names, Elems(stopped)), State().sources - Elems(stopped), amplitude))
    {
      v, stopped := MixPulls(names, sources, keeper, amplitude);
      StepOf(State(), keeper.time, v, stopped);
    }

    /** The removals that end `value`, seen on the mixer. */
    method Prune(gone: seq<string>)
      requires Valid() && Distinct(gone) && forall x :: x in gone ==> x in sources
      modifies this
      ensures Valid()
      ensures State() == Mixer(Without(old(names), Elems(gone)), old(State()).sources - Elems(gone), old(amplitude))
      ensures frequency == old(frequency) && shape == old(shape) && stopTime == old(stopTime)
      ensures enabled == old(enabled) && proportion == old(proportion) && factories == old(factories)
    {
      ghost var registry := sources;
      RemoveAll(gone);
      ViewsKept(registry);
      ViewsWithout(registry, Elems(gone));
    }

    /** The deletions at the end of `value`: every name of `gone`, which are
        distinct and registered, is removed, each removal succeeding. */
    method RemoveAll(gone: seq<string>)
      requires Valid() && Distinct(gone) && forall x :: x in gone ==> x in sources
      modifies this
      ensures Valid()
      ensures sources == old(sources) - Elems(gone) && names == Without(old(names), Elems(gone))
      ensures amplitude == old(amplitude) && frequency == old(frequency) && shape == old(shape)
      ensures stopTime == old(stopTime) && enabled == old(enabled) && proportion == old(proportion)
      ensures factories == old(factories)
    {
      WithoutNothing(names, {});
      assert Elems(gone[..0]) == {};
      for j := 0 to |gone|
        invariant Valid()
        invariant sources == old(sources) - Elems(gone[..j])
        invariant names == Without(old(names), Elems(gone[..j]))
        invariant amplitude == old(amplitude) && frequency == old(frequency) && shape == old(shape)
        invariant stopTime == old(stopTime) && enabled == old(enabled) && proportion == old(proportion)
        invariant factories == old(factories)
      {
        var name := gone[j];
        ghost var done := Elems(gone[..j]);
        ElemsStep(gone, j);
        assert name !in done;
        var removed := RemoveSource(name);
        assert Truthy(removed);
        WithoutTwice(old(names), done, name);
        MapMinusStep(old(sources), done, name);
      }
      assert gone[..|gone|] == gone;
    }

    /** `__next__`, which a channel inherits: exhausted once past its stop
        time, otherwise the mixed value at the clock's time. */
    method Next() returns (r: Result<int>)
      requires Valid()
      modifies this
      ensures Valid()
      ensures PastStop(old(stopTime), keeper.time) ==> r == Fail(Exhausted) && names == old(names) && sources == old(sources)
      ensures !PastStop(old(stopTime), keeper.time) ==>
                r.Ok? && (r.value, State()) == Step(old(State()), keeper.time)
      ensures frequency == old(frequency) && shape == old(shape) && stopTime == old(stopTime)
      ensures enabled == old(enabled) && proportion == old(proportion) && factories == old(factories)
    {
      if PastStop(stopTime, keeper.time) {
        return Fail(Exhausted);
      }
      var v := Value(keeper.time);
      r := Ok(v);
    }

    /** `__copy__`: a new channel on the same time keeper with the default
        parameters, a new registry holding the same source objects in the
        same order, and the factories shared. */
    method Copy() returns (c: SignalChannel)
      requires Valid()
      ensures fresh(c) && c.Valid() && c.keeper == keeper && c.params == Default
      ensures c.names == names && c.sources == sources && c.factories == factories
      ensures c.frequency == Default.frequency && c.shape == Default.shape && c.stopTime == None
      ensures c.enabled && c.amplitude == Default.amplitude && c.proportion == 0.0
    {
      c := new SignalChannel(keeper, Default);
      c.sources := sources;
      c.names := names;
      c.factories := factories;
    }

    /** `register_factory(source)`: filed under the lowercased class name;
        a name already taken is refused and the table left alone. */
    method RegisterFactory(f: Factory) returns (r: OperationResult)
      modifies factories
      ensures var name := Lower(f.className);
              && (name in old(factories.entries) ==> r == Duplicate(name) && factories.entries == old(factories.entries))
              && (name !in old(factories.entries) ==> r == Success && factories.entries == old(factories.entries)[name := f])
    {
      r := Success;
      var name := Lower(f.className);
      if name in factories.entries {
        r := Duplicate(name);
      } else {
        factories.entries := factories.entries[name := f];
      }
    }

    /** `register_source(name, source)`: a taken name is refused first, then
        a source on another time keeper (compared by identity); otherwise
        exactly that entry is added, at the end of the order. */
    method RegisterSource(name: string, source: Source) returns (r: OperationResult)
      requires Valid()
      modifies this
      ensures Valid()
      ensures name in old(sources) ==> r == Duplicate(name) && names == old(names) && sources == old(sources)
      ensures name !in old(sources) && source.keeper != keeper ==> r == DifferentKeepers && names == old(names) && sources == old(sources)
      ensures name !in old(sources) && source.keeper == keeper ==>
                r == Success && sources == old(sources)[name := source] && names == old(names) + [name]
      ensures amplitude == old(amplitude) && frequency == old(frequency) && shape == old(shape)
      ensures stopTime == old(stopTime) && enabled == old(enabled) && proportion == old(proportion)
      ensures factories == old(factories)
    {
      r := Success;
      if name in sources {
        r := Duplicate(name);
      } else if source.keeper != keeper {
        r := DifferentKeepers;
      } else {
        sources := sources[name := source];
        names := names + [name];
      }
    }

    /** `remove_source(name)`: an unknown name is refused; otherwise exactly
        that entry is deleted. */
    method RemoveSource(name: string) returns (r: OperationResult)
      requires Valid()
      modifies this
      ensures Valid()
      ensures name !in old(sources) ==> r == NoSource(name) && names == old(names) && sources == old(sources)
      ensures name in old(sources) ==>
                r == Success && sources == old(sources) - {name} && names == Without(old(names), {name})
      ensures amplitude == old(amplitude) && frequency == old(frequency) && shape == old(shape)
      ensures stopTime == old(stopTime) && enabled == old(enabled) && proportion == old(proportion)
      ensures factories == old(factories)
    {
      r := Success;
      if name !in sources {
        r := NoSource(name);
      } else {
        Unregister(name);
      }
    }

    /** The deletion itself: the name leaves the order and the mapping. */
    method Unregister(name: string)
      requires Valid() && name in sources
      modifies this`names, this`sources
      ensures Valid() && sources == old(sources) - {name} && names == Without(old(names), {name})
    {
      var left, kept := Without(names, {name}), sources - {name};
      assert Listed(left, kept.Keys) by {
        WithoutListed(names, sources.Keys, {name});
        assert kept.Keys == sources.Keys - {name};
      }
      names, sources := left, kept;
    }

    /** `register_dynamic(name, factory, data)`: a factory given by name is
        looked up first (an unknown one is a `KeyError`), then a source is
        created from the data on the channel's time keeper (bad data is an
        error), then it is registered under `name`. */
    method RegisterDynamic(name: string, factory: FactoryRef, data: Option<ParamData>)
      returns (r: Result<OperationResult>)
      requires Valid()
      modifies this
      ensures Valid() && factories == old(factories)
      ensures factory.ByName? && factory.key !in factories.entries ==>
                r == Fail(UnknownFactory) && names == old(names) && sources == old(sources)
      ensures data.Some? && FromDict(data.value).Fail? && (factory.ByName? ==> factory.key in factories.entries) ==>
                r == Fail(UnknownShape) && names == old(names) && sources == old(sources)
      ensures r.Ok? ==> (name in old(sources) <==> r.value == Duplicate(name))
      ensures r.Ok? && name in old(sources) ==> names == old(names) && sources == old(sources)
      ensures r.Ok? && name !in old(sources) ==>
                r.value == Success && names == old(names) + [name] && name in sources
                && sources == old(sources)[name := sources[name]] && fresh(sources[name])
                && sources[name].params == (if data.Some? then FromDict(data.value).value else Default)
      ensures r.Fail? ==> names == old(names) && sources == old(sources)
      ensures amplitude == old(amplitude) && frequency == old(frequency) && shape == old(shape)
      ensures stopTime == old(stopTime) && enabled == old(enabled) && proportion == old(proportion)
    {
      var f: Factory;
      match factory {
        case ByClass(c) =>
          f := c;
        case ByName(key) =>
          if key !in factories.entries {
            return Fail(UnknownFactory);
          }
          f := factories.entries[key];
      }
      var created := Source.Create(keeper, data, f.voice);
      if created.Fail? {
        return Fail(created.error);
      }
      var registered := RegisterSource(name, created.value);
      r := Ok(registered);
    }
  }

  /** One more pull in the mixing loop. */
  lemma PullsStep(names: seq<string>, ps: seq<Pull>, i: nat)
    requires |names| == |ps| && i < |ps|
    ensures Total(ps[..i + 1]) == Total(ps[..i]) + Weight(ps[i])
    ensures Contributors(ps[..i + 1]) == Contributors(ps[..i]) + (if ps[i].Sample? then 1 else 0)
    ensures StoppedNames(names[..i + 1], ps[..i + 1])
         == StoppedNames(names[..i], ps[..i]) + (if ps[i].Stopped? then [names[i]] else [])
  {
    assert ps[..i + 1][..i] == ps[..i] && names[..i + 1][..i] == names[..i];
  }

  /** Adding `raw * amplitude` to the running value adds the pull's weight. */
  lemma WeightOf(p: Pull, raw: int, amplitude: real, before: real, after: real)
    requires p == Sample(raw, amplitude) && after == before + raw as real * amplitude
    ensures after == before + Weight(p)
  {
  }

  /** The loop's division and scaling compute `Mixed`. */
  lemma MixedOf(total: real, k: nat, amplitude: real, averaged: real, scaled: real)
    requires averaged == (if k > 1 then total / k as real else total) && scaled == averaged * amplitude
    ensures Mixed(total, k, amplitude) == Trunc(scaled)
  {
  }

  lemma ElemsStep(xs: seq<string>, j: nat)
    requires j < |xs|
    ensures Elems(xs[..j + 1]) == Elems(xs[..j]) + {xs[j]}
  {
    assert xs[..j + 1] == xs[..j] + [xs[j]];
  }

  lemma MapMinusStep(m: map<string, Source>, gone: set<string>, x: string)
    ensures (m - gone) - {x} == m - (gone + {x})
  {
  }

  /** Registering a source and removing it again leaves the registry as it
      was. */
  lemma {:induction false} RegisterThenRemove(m: Mixer, name: string, s: SourceView)
    requires Registered(m) && name !in m.sources
    ensures m.sources[name := s] - {name} == m.sources
    ensures Without(m.names + [name], {name}) == m.names
  {
    WithoutAppended(m.names, name);
  }
}
