/** When the reported average latency is no mean of what was measured (src/p2p/manager.rs:507-513): its
    weight is the number of connections, not the number of samples. */
module P2PLatency {
  import opened Wrappers
  import opened P2PManager

  /** The sample that an event averages, if any. */
  function SampleOf(w: World, e: Event): Option<nat> {
    if e.Advance? && e.thread < |w.threads| && w.threads[e.thread].Averaging? then Some(w.threads[e.thread].ms)
    else None
  }

  function Samples(events: seq<Event>): seq<nat> {
    if events == [] then []
    else
      var init := events[..|events| - 1];
      Samples(init) + match SampleOf(Run(init), events[|events| - 1]) case None => [] case Some(ms) => [ms]
  }

  function Least(samples: seq<nat>): (m: nat)
    requires samples != []
    ensures m in samples && forall x :: x in samples ==> m <= x
  {
    var last := samples[|samples| - 1];
    if |samples| == 1 then last
    else
      var m := Least(samples[..|samples| - 1]);
      assert samples == samples[..|samples| - 1] + [last];
      if m < last then m else last
  }

  /** The average reported after the events is at least the smallest sample in it. */
  predicate Fair(events: seq<Event>) {
    var average := Run(events).shared.stats.average;
    average.Some? ==> Samples(events) != [] && Least(Samples(events)) as real <= average.value
  }

  /** It was so after every event. */
  predicate AlwaysFair(events: seq<Event>) {
    Fair(events) && (events != [] ==> AlwaysFair(events[..|events| - 1]))
  }

  /** The first sample was not divided by several connections, or was zero. */
  predicate FirstUndivided(events: seq<Event>) {
    events != [] ==>
      var init := events[..|events| - 1];
      var w, sample := Run(init), SampleOf(Run(init), events[|events| - 1]);
      && FirstUndivided(init)
      && (Samples(init) == [] && sample.Some? ==> w.shared.stats.established <= 1 || sample.value == 0)
  }

  lemma WeightedAbove(average: real, sample: real, low: real, count: nat)
    requires low <= average && low <= sample && count >= 1
    ensures low <= (average * (count - 1) as real + sample) / count as real
  {
    var c := count as real;
    var sum := average * (count - 1) as real + sample;
    assert average * (count - 1) as real >= low * (count - 1) as real;
    assert sum >= low * c;
    QuotientAbove(sum, c, low);
  }

  lemma QuotientAbove(sum: real, c: real, low: real)
    requires c > 0.0 && sum >= low * c
    ensures sum / c >= low
  {
    assert low * c / c == low;
  }

  lemma Divided(ms: nat, count: nat)
    requires count >= 1
    ensures ms as real <= (0.0 * (count - 1) as real + ms as real) / count as real <==> count == 1 || ms == 0
  {
    var c, m := count as real, ms as real;
    assert 0.0 * (count - 1) as real == 0.0;
    if count > 1 && ms > 0 {
      assert m * c > m;
      assert m / c * c == m;
      assert m / c < m;
    }
  }

  lemma StepAverage(w: World, e: Event)
    ensures var s, r := SampleOf(w, e), Step(w, e).shared.stats;
            r.average == if s.Some? then Some(NewAverage(w.shared.stats, s.value)) else w.shared.stats.average
  {
  }

  lemma {:induction false} AverageNeedsSample(events: seq<Event>)
    ensures Run(events).shared.stats.average.Some? <==> Samples(events) != []
  {
    if events != [] {
      AverageNeedsSample(events[..|events| - 1]);
      StepAverage(Run(events[..|events| - 1]), events[|events| - 1]);
    }
  }

  lemma LeastAppend(samples: seq<nat>, ms: nat)
    requires samples != []
    ensures Least(samples + [ms]) == if Least(samples) < ms then Least(samples) else ms
  {
    assert (samples + [ms])[..|samples|] == samples;
  }

  function Weight(stats: Stats): nat {
    if stats.established > 1 then stats.established else 1
  }

  lemma FirstSampleFair(stats: Stats, ms: nat)
    requires stats.average.None?
    ensures ms as real <= NewAverage(stats, ms) <==> stats.established <= 1 || ms == 0
  {
    Divided(ms, Weight(stats));
  }

  lemma LaterSampleFair(stats: Stats, samples: seq<nat>, ms: nat)
    requires stats.average.Some? && samples != [] && Least(samples) as real <= stats.average.value
    ensures Least(samples + [ms]) as real <= NewAverage(stats, ms)
  {
    LeastAppend(samples, ms);
    WeightedAbove(stats.average.value, ms as real, Least(samples + [ms]) as real, Weight(stats));
  }

  /** At every moment of a run the average is at least the smallest sample exactly if the first sample
      met at most one established connection, or was zero. */
  lemma {:induction false} FairExactly(events: seq<Event>)
    ensures AlwaysFair(events) <==> FirstUndivided(events)
  {
    if events != [] {
      var init, e := events[..|events| - 1], events[|events| - 1];
      var w := Run(init);
      FairExactly(init);
      AverageNeedsSample(init);
      StepAverage(w, e);
      if SampleOf(w, e).Some? && Fair(init) {
        var ms := SampleOf(w, e).value;
        if Samples(init) == [] {
          FirstSampleFair(w.shared.stats, ms);
          assert Least([ms]) == ms && [] + [ms] == [ms];
        } else {
          LaterSampleFair(w.shared.stats, Samples(init), ms);
        }
      }
    }
  }

  /** What one sample does to the average: the old average keeps the weight of all connections but one. */
  lemma SampleWeighs(w: World, e: Event)
    requires SampleOf(w, e).Some?
    ensures var before, r := w.shared.stats, Step(w, e).shared.stats;
            var weight := if before.established <= 1 then 1 else before.established;
            && r.average.Some?
            && r.average.value * weight as real
               == before.average.GetOr(0.0) * (weight - 1) as real + SampleOf(w, e).value as real
  {
    var stats, ms := w.shared.stats, SampleOf(w, e).value;
    StepAverage(w, e);
    var sum := stats.average.GetOr(0.0) * (Weight(stats) - 1) as real + ms as real;
    assert NewAverage(stats, ms) == sum / Weight(stats) as real;
    assert sum / Weight(stats) as real * Weight(stats) as real == sum;
  }
}
