/** The performance profiler: the latency, jitter and throughput tests and the full
    validation run, taken over the samples they collect.

    The wall-clock loops of the jitter and throughput tests become a given sequence of
    draws, one per read_metrics call, and the `perf_counter` measurements of the latency
    test become a given sequence of elapsed times, one per iteration. */
module PerformanceProfiling {
  import opened Outcomes
  import opened SampleStats
  import opened FpgaControl

  /** The dictionary run_latency_test returns, without its median and stdev entries. */
  datatype LatencyResults = LatencyResults(mean: real, min: real, max: real, p95: real, p99: real)

  /** The dictionary run_jitter_test returns, without its stdev_jitter entry. */
  datatype JitterResults = JitterResults(meanJitter: real, maxJitter: real)

  /** The dictionary run_throughput_test returns. */
  datatype ThroughputResults = ThroughputResults(meanThroughput: real, minThroughput: real, maxThroughput: real)

  /** The dictionary run_full_validation returns. */
  datatype ValidationResults = ValidationResults(latency: LatencyResults, jitter: JitterResults, throughput: ThroughputResults)

  /** The PASS / FAIL line a test prints. */
  datatype Verdict = Pass | Fail

  const LatencyTargetUs: real := 100.0
  const JitterTargetUs: real := 10.0

  /** The 1 KB payload `b"x" * 1024` streamed on every latency iteration. */
  const TestPayload: seq<byte> := seq(1024, _ => 120)

  /** Number of iterations of `range(n)`. */
  function RangeLength(n: int): (r: nat)
    ensures n >= 0 ==> r == n
    ensures n <= 0 ==> r == 0
  {
    if n < 0 then 0 else n
  }

  function Abs(x: real): (r: real)
    ensures r >= 0.0
    ensures r == x || r == -x
  {
    if x < 0.0 then -x else x
  }

  // ---------------------------------------------------------------------------
  // Latency test

  /** The latency test's statistics. statistics.stdev needs two values (and mean and
      median one), so fewer than two latencies raise StatisticsError; otherwise the mean is
      the arithmetic mean, p95 and p99 are the nearest-rank percentiles, and
      min <= p95 <= p99 <= max and min <= mean <= max. */
  function LatencyReport(latencies: seq<real>): (r: Result<LatencyResults>)
    ensures r.Err? <==> |latencies| < 2
    ensures r.Err? ==> r.error == StatisticsError
    ensures r.Ok? ==>
      var s := r.value;
      && s.min <= s.p95 <= s.p99 <= s.max
      && s.min <= s.mean <= s.max
      && s.min in latencies && s.max in latencies
      && (forall i :: 0 <= i < |latencies| ==> s.min <= latencies[i] <= s.max)
    ensures r.Ok? ==>
      && r.value.mean == Mean(latencies)
      && r.value.p95 == Percentile(latencies, 95)
      && r.value.p99 == Percentile(latencies, 99)
  {
    if |latencies| < 2 then Err(StatisticsError)
    else
      PercentileMonotone(latencies, 95, 99);
      Ok(LatencyResults(Mean(latencies), Min(latencies), Max(latencies),
                        Percentile(latencies, 95), Percentile(latencies, 99)))
  }

  /** The latency test passes exactly when the mean is below the 100 microsecond target. */
  function LatencyVerdict(results: LatencyResults): (v: Verdict)
    ensures v == Pass <==> results.mean < LatencyTargetUs
  {
    if results.mean < LatencyTargetUs then Pass else Fail
  }

  /** When every latency is below target the test passes, and when it passes at least one
      latency is below target. */
  lemma LatencyVerdictFromSamples(latencies: seq<real>)
    requires |latencies| >= 2
    ensures (forall i :: 0 <= i < |latencies| ==> latencies[i] < LatencyTargetUs) ==>
            LatencyVerdict(LatencyReport(latencies).value) == Pass
    ensures LatencyVerdict(LatencyReport(latencies).value) == Pass ==>
            exists i :: 0 <= i < |latencies| && latencies[i] < LatencyTargetUs
  {
    var s := LatencyReport(latencies).value;
    if forall i :: 0 <= i < |latencies| ==> latencies[i] < LatencyTargetUs {
      var j :| 0 <= j < |latencies| && latencies[j] == s.max;
    }
    if LatencyVerdict(s) == Pass {
      var j :| 0 <= j < |latencies| && latencies[j] == s.min;
    }
  }

  // ---------------------------------------------------------------------------
  // Jitter test

  /** The absolute differences of successive latencies: one fewer than the latencies. */
  function SuccessiveDifferences(latencies: seq<real>): (r: seq<real>)
    ensures |r| == if latencies == [] then 0 else |latencies| - 1
    ensures forall i :: 0 <= i < |r| ==> r[i] == Abs(latencies[i + 1] - latencies[i])
    ensures forall i :: 0 <= i < |r| ==> r[i] >= 0.0
  {
    if |latencies| < 2 then []
    else [Abs(latencies[1] - latencies[0])] + SuccessiveDifferences(latencies[1..])
  }

  /** The loop `for i in range(1, len(latencies))` that builds jitter_values. */
  method ComputeJitterValues(latencies: seq<real>) returns (jitterValues: seq<real>)
    ensures jitterValues == SuccessiveDifferences(latencies)
  {
    jitterValues := [];
    var i := 1;
    while i < |latencies|
      invariant 1 <= i <= if latencies == [] then 1 else |latencies|
      invariant |jitterValues| == i - 1
      invariant forall k :: 0 <= k < i - 1 ==> jitterValues[k] == Abs(latencies[k + 1] - latencies[k])
    {
      jitterValues := jitterValues + [Abs(latencies[i] - latencies[i - 1])];
      i := i + 1;
    }
    var expected := SuccessiveDifferences(latencies);
    assert |jitterValues| == |expected|;
    forall k | 0 <= k < |expected| ensures jitterValues[k] == expected[k] {
      assert jitterValues[k] == Abs(latencies[k + 1] - latencies[k]);
    }
  }

  /** The jitter test's statistics. statistics.stdev needs two jitter values (mean needs
      one), so fewer raise StatisticsError; otherwise the mean is the arithmetic mean, and
      the maximum is one of the values, bounds them all, and bounds the mean. */
  function JitterReport(jitterValues: seq<real>): (r: Result<JitterResults>)
    ensures r.Err? <==> |jitterValues| < 2
    ensures r.Err? ==> r.error == StatisticsError
    ensures r.Ok? ==>
      && r.value.meanJitter <= r.value.maxJitter
      && r.value.maxJitter in jitterValues
      && (forall i :: 0 <= i < |jitterValues| ==> jitterValues[i] <= r.value.maxJitter)
    ensures r.Ok? ==> r.value.meanJitter == Mean(jitterValues)
  {
    if |jitterValues| < 2 then Err(StatisticsError)
    else Ok(JitterResults(Mean(jitterValues), Max(jitterValues)))
  }

  /** The jitter test passes exactly when the maximum jitter is below the 10 microsecond
      target. */
  function JitterVerdict(results: JitterResults): (v: Verdict)
    ensures v == Pass <==> results.maxJitter < JitterTargetUs
  {
    if results.maxJitter < JitterTargetUs then Pass else Fail
  }

  /** Over a latency sequence, the jitter test yields results iff there are at least three
      latencies; the mean jitter is then non-negative, and the test passes iff every two
      successive latencies differ by less than 10. */
  lemma JitterVerdictIff(latencies: seq<real>)
    requires |latencies| >= 3
    ensures JitterReport(SuccessiveDifferences(latencies)).Ok?
    ensures 0.0 <= JitterReport(SuccessiveDifferences(latencies)).value.meanJitter
    ensures JitterVerdict(JitterReport(SuccessiveDifferences(latencies)).value) == Pass <==>
            forall i :: 0 <= i < |latencies| - 1 ==> Abs(latencies[i + 1] - latencies[i]) < JitterTargetUs
  {
    var jv := SuccessiveDifferences(latencies);
    var s := JitterReport(jv).value;
    assert s.maxJitter == Max(jv) && s.meanJitter == Mean(jv);
    assert Min(jv) >= 0.0;
    if s.maxJitter < JitterTargetUs {
      forall i | 0 <= i < |latencies| - 1 ensures Abs(latencies[i + 1] - latencies[i]) < JitterTargetUs {
        assert jv[i] == Abs(latencies[i + 1] - latencies[i]);
      }
    } else {
      var j :| 0 <= j < |jv| && jv[j] == s.maxJitter;
      assert Abs(latencies[j + 1] - latencies[j]) >= JitterTargetUs;
    }
  }

  /** For samples read under one configuration, latencies lie in a band of width 20, so no
      jitter value exceeds 20. */
  lemma JitterOfControllerSamples(cfg: FPGAConfig, draws: seq<Draws>)
    requires |draws| >= 3
    requires forall i :: 0 <= i < |draws| ==> DrawsInRange(draws[i])
    ensures JitterReport(SuccessiveDifferences(Latencies(SamplesFor(cfg, draws)))).Ok?
    ensures JitterReport(SuccessiveDifferences(Latencies(SamplesFor(cfg, draws)))).value.maxJitter <= 20.0
  {
    var l := Latencies(SamplesFor(cfg, draws));
    var jv := SuccessiveDifferences(l);
    forall i | 0 <= i < |jv| ensures jv[i] <= 20.0 {
      assert l[i] == Sample(cfg, draws[i]).latencyUs;
      assert l[i + 1] == Sample(cfg, draws[i + 1]).latencyUs;
    }
  }

  // ---------------------------------------------------------------------------
  // Throughput test

  /** The throughput test's statistics: on an empty list statistics.mean raises
      StatisticsError; otherwise the mean is the arithmetic mean of the collected values,
      and min <= mean <= max. */
  function ThroughputReport(throughputs: seq<real>): (r: Result<ThroughputResults>)
    ensures r.Err? <==> throughputs == []
    ensures r.Err? ==> r.error == StatisticsError
    ensures r.Ok? ==>
      var s := r.value;
      && s.minThroughput <= s.meanThroughput <= s.maxThroughput
      && s.minThroughput in throughputs && s.maxThroughput in throughputs
      && (forall i :: 0 <= i < |throughputs| ==> s.minThroughput <= throughputs[i] <= s.maxThroughput)
    ensures r.Ok? ==> r.value.meanThroughput == Mean(throughputs)
  {
    if throughputs == [] then Err(StatisticsError)
    else Ok(ThroughputResults(Mean(throughputs), Min(throughputs), Max(throughputs)))
  }

  /** For samples read under one configuration, the mean throughput lies within 50 MB/s
      of active_cores * 250. */
  lemma ThroughputOfControllerSamples(cfg: FPGAConfig, draws: seq<Draws>)
    requires draws != []
    requires forall i :: 0 <= i < |draws| ==> DrawsInRange(draws[i])
    ensures ThroughputReport(Throughputs(SamplesFor(cfg, draws))).Ok?
    ensures var s := ThroughputReport(Throughputs(SamplesFor(cfg, draws))).value;
      (cfg.activeCores * 250 - 50) as real <= s.meanThroughput <= (cfg.activeCores * 250 + 50) as real
  {
    var t := Throughputs(SamplesFor(cfg, draws));
    var lo, hi := (cfg.activeCores * 250 - 50) as real, (cfg.activeCores * 250 + 50) as real;
    forall i | 0 <= i < |t| ensures lo <= t[i] <= hi {
      assert t[i] == Sample(cfg, draws[i]).throughputMbps;
    }
    MeanBounds(t, lo, hi);
  }

  // ---------------------------------------------------------------------------
  // The profiler

  class PerformanceProfiler {
    const controller: FPGAController
    var results: seq<PerformanceMetrics>

    constructor (controller: FPGAController)
      ensures this.controller == controller && results == []
    {
      this.controller := controller;
      results := [];
    }

    /** The timing loop of run_latency_test: one stream_data call and one recorded
        elapsed time per iteration, in order. The first call raises when the controller
        is not connected. */
    method MeasureLatencies(iterations: int, elapsedUs: seq<real>) returns (r: Result<seq<real>>)
      requires iterations <= |elapsedUs|
      ensures iterations > 0 && !controller.isConnected ==> r == Err(RuntimeError(NotConnectedMessage))
      ensures iterations <= 0 || controller.isConnected ==> r == Ok(elapsedUs[..RangeLength(iterations)])
    {
      var latencies: seq<real> := [];
      var i := 0;
      while i < iterations
        invariant 0 <= i <= RangeLength(iterations)
        invariant latencies == elapsedUs[..i]
        invariant i > 0 ==> controller.isConnected
      {
        var out := controller.StreamData(TestPayload);
        if out.Err? {
          return Err(out.error);
        }
        latencies := latencies + [elapsedUs[i]];
        i := i + 1;
      }
      r := Ok(latencies);
    }

    method RunLatencyTest(iterations: int, elapsedUs: seq<real>) returns (r: Result<LatencyResults>)
      requires iterations <= |elapsedUs|
      ensures iterations > 0 && !controller.isConnected ==> r == Err(RuntimeError(NotConnectedMessage))
      ensures iterations <= 0 || controller.isConnected ==> r == LatencyReport(elapsedUs[..RangeLength(iterations)])
    {
      var measured := MeasureLatencies(iterations, elapsedUs);
      if measured.Err? {
        return Err(measured.error);
      }
      r := LatencyReport(measured.value);
    }

    /** The sampling loop of the jitter and throughput tests: one read_metrics call per
        draw, each appending its sample to the controller's history. */
    method CollectSamples(draws: seq<Draws>) returns (samples: seq<PerformanceMetrics>)
      requires controller.Valid()
      requires forall i :: 0 <= i < |draws| ==> DrawsInRange(draws[i])
      modifies controller
      ensures controller.Valid()
      ensures samples == SamplesFor(old(controller.config), draws)
      ensures controller.metricsHistory == old(controller.metricsHistory) + samples
      ensures controller.config == old(controller.config)
      ensures controller.isConnected == old(controller.isConnected)
    {
      samples := [];
      var i := 0;
      while i < |draws|
        invariant 0 <= i <= |draws|
        invariant controller.Valid()
        invariant samples == SamplesFor(old(controller.config), draws[..i])
        invariant controller.metricsHistory == old(controller.metricsHistory) + samples
        invariant controller.config == old(controller.config)
        invariant controller.isConnected == old(controller.isConnected)
      {
        var m := controller.ReadMetrics(draws[i]);
        samples := samples + [m];
        i := i + 1;
      }
      assert draws[..i] == draws;
    }

    /** Samples the latency once per draw, then reports on the successive differences.
        The samples stay in the controller's history even when the report raises. */
    method RunJitterTest(draws: seq<Draws>) returns (r: Result<JitterResults>)
      requires controller.Valid()
      requires forall i :: 0 <= i < |draws| ==> DrawsInRange(draws[i])
      modifies controller
      ensures controller.Valid()
      ensures r == JitterReport(SuccessiveDifferences(Latencies(SamplesFor(old(controller.config), draws))))
      ensures controller.metricsHistory == old(controller.metricsHistory) + SamplesFor(old(controller.config), draws)
      ensures controller.config == old(controller.config)
      ensures controller.isConnected == old(controller.isConnected)
    {
      var samples := CollectSamples(draws);
      var jitterValues := ComputeJitterValues(Latencies(samples));
      r := JitterReport(jitterValues);
    }

    /** Samples the throughput once per draw and reports on the collected values. */
    method RunThroughputTest(draws: seq<Draws>) returns (r: Result<ThroughputResults>)
      requires controller.Valid()
      requires forall i :: 0 <= i < |draws| ==> DrawsInRange(draws[i])
      modifies controller
      ensures controller.Valid()
      ensures r == ThroughputReport(Throughputs(SamplesFor(old(controller.config), draws)))
      ensures controller.metricsHistory == old(controller.metricsHistory) + SamplesFor(old(controller.config), draws)
      ensures controller.config == old(controller.config)
      ensures controller.isConnected == old(controller.isConnected)
    {
      var samples := CollectSamples(draws);
      r := ThroughputReport(Throughputs(samples));
    }

    /** The three tests in order (1000 latency iterations); the first one that raises
        stops the run, and the controller keeps the samples collected before it. */
    method RunFullValidation(elapsedUs: seq<real>, jitterDraws: seq<Draws>, throughputDraws: seq<Draws>)
      returns (r: Result<ValidationResults>)
      requires |elapsedUs| >= 1000
      requires controller.Valid()
      requires forall i :: 0 <= i < |jitterDraws| ==> DrawsInRange(jitterDraws[i])
      requires forall i :: 0 <= i < |throughputDraws| ==> DrawsInRange(throughputDraws[i])
      modifies controller
      ensures controller.Valid()
      ensures
        var cfg := old(controller.config);
        var latency := if old(controller.isConnected) then LatencyReport(elapsedUs[..1000])
                       else Err(RuntimeError(NotConnectedMessage));
        var jitter := JitterReport(SuccessiveDifferences(Latencies(SamplesFor(cfg, jitterDraws))));
        var throughput := ThroughputReport(Throughputs(SamplesFor(cfg, throughputDraws)));
        && r == (if latency.Err? then Err(latency.error)
                 else if jitter.Err? then Err(jitter.error)
                 else if throughput.Err? then Err(throughput.error)
                 else Ok(ValidationResults(latency.value, jitter.value, throughput.value)))
        && controller.metricsHistory ==
             old(controller.metricsHistory)
             + (if latency.Err? then [] else SamplesFor(cfg, jitterDraws))
             + (if latency.Err? || jitter.Err? then [] else SamplesFor(cfg, throughputDraws))
      ensures controller.config == old(controller.config)
      ensures controller.isConnected == old(controller.isConnected)
    {
      ghost var cfg, h0 := controller.config, controller.metricsHistory;
      var latency := RunLatencyTest(1000, elapsedUs);
      if latency.Err? {
        return Err(latency.error);
      }
      var jitter := RunJitterTest(jitterDraws);
      assert controller.metricsHistory == h0 + SamplesFor(cfg, jitterDraws);
      if jitter.Err? {
        return Err(jitter.error);
      }
      var throughput := RunThroughputTest(throughputDraws);
      if throughput.Err? {
        return Err(throughput.error);
      }
      r := Ok(ValidationResults(latency.value, jitter.value, throughput.value));
    }
  }
}
