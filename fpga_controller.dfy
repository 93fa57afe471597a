/** The simulated FPGA accelerator controller: a four-field integer configuration, a
    connection flag and an append-only history of metric samples, with the statistics
    that the controller derives from the most recent 100 samples.

    Sleeps and console output are left out; the wall clock and the three
    `random.uniform` draws of a sample become the fields of a `Draws` value supplied by
    the caller. */
module FpgaControl {
  import opened Outcomes
  import opened SampleStats

  type byte = x: int | 0 <= x < 256

  /** The component states ACTIVE, IDLE and ERROR. */
  datatype ComponentStatus = Active | Idle | Failed

  /** The configuration dataclass. Python does not check the values' types or ranges;
      the model takes them to be integers, as the dataclass annotates them. */
  datatype FPGAConfig = FPGAConfig(windowSize: int, activeCores: int, dataRate: int, filterThreshold: int)

  const DefaultConfig := FPGAConfig(1024, 4, 1000, 100)

  /** One sample read from the accelerator. */
  datatype PerformanceMetrics = PerformanceMetrics(
    timestamp: real,
    latencyUs: real,
    throughputMbps: real,
    jitterUs: real,
    pcieStatus: ComponentStatus,
    dmaStatus: ComponentStatus,
    computeStatus: ComponentStatus)

  // ---------------------------------------------------------------------------
  // Configuration merge (update_config)

  /** The attribute names of the configuration that `hasattr` accepts and `setattr` writes. */
  const ConfigFields: set<string> := {"window_size", "active_cores", "data_rate", "filter_threshold"}

  /** The value of the configuration attribute called name. */
  function Field(cfg: FPGAConfig, name: string): int
    requires name in ConfigFields
  {
    match name
    case "window_size" => cfg.windowSize
    case "active_cores" => cfg.activeCores
    case "data_rate" => cfg.dataRate
    case _ => cfg.filterThreshold
  }

  /** `setattr(cfg, name, value)`: the named attribute takes the value, the three others
      keep theirs. */
  function WithField(cfg: FPGAConfig, name: string, value: int): (c: FPGAConfig)
    requires name in ConfigFields
    ensures Field(c, name) == value
    ensures forall other :: other in ConfigFields && other != name ==> Field(c, other) == Field(cfg, other)
  {
    match name
    case "window_size" => cfg.(windowSize := value)
    case "active_cores" => cfg.(activeCores := value)
    case "data_rate" => cfg.(dataRate := value)
    case _ => cfg.(filterThreshold := value)
  }

  /** One keyword argument of update_config: written when the name is an attribute,
      ignored otherwise. */
  function ApplyUpdate(cfg: FPGAConfig, kv: (string, int)): (c: FPGAConfig)
    ensures kv.0 in ConfigFields ==> Field(c, kv.0) == kv.1
    ensures forall other :: other in ConfigFields && other != kv.0 ==> Field(c, other) == Field(cfg, other)
    ensures kv.0 !in ConfigFields ==> c == cfg
  {
    if kv.0 in ConfigFields then WithField(cfg, kv.0, kv.1) else cfg
  }

  /** The keyword arguments applied in order, as the loop of update_config does; an
      attribute for which no value is supplied keeps its old value. */
  function ApplyUpdates(cfg: FPGAConfig, updates: seq<(string, int)>): (c: FPGAConfig)
    ensures forall name :: name in ConfigFields && LastSupplied(updates, name).None? ==>
      Field(c, name) == Field(cfg, name)
    decreases |updates|
  {
    if updates == [] then cfg
    else ApplyUpdate(ApplyUpdates(cfg, updates[..|updates| - 1]), updates[|updates| - 1])
  }

  /** The last value supplied for name, if any. Python keyword arguments have distinct
      names, so for them this is the one value supplied. */
  function LastSupplied(updates: seq<(string, int)>, name: string): Option<int>
    decreases |updates|
  {
    if updates == [] then None
    else if updates[|updates| - 1].0 == name then Some(updates[|updates| - 1].1)
    else LastSupplied(updates[..|updates| - 1], name)
  }

  /** The supplied keyword arguments whose names are configuration attributes. */
  function KnownOnly(updates: seq<(string, int)>): (r: seq<(string, int)>)
    ensures forall i :: 0 <= i < |r| ==> r[i].0 in ConfigFields
    decreases |updates|
  {
    if updates == [] then []
    else
      var rest := KnownOnly(updates[..|updates| - 1]);
      var last := updates[|updates| - 1];
      if last.0 in ConfigFields then rest + [last] else rest
  }

  /** After update_config every attribute holds the value supplied for it, and every
      attribute not supplied keeps its old value. */
  lemma {:induction false} UpdateFieldwise(cfg: FPGAConfig, updates: seq<(string, int)>, name: string)
    requires name in ConfigFields
    ensures Field(ApplyUpdates(cfg, updates), name) ==
            match LastSupplied(updates, name)
            case Some(v) => v
            case None => Field(cfg, name)
    decreases |updates|
  {
    if updates != [] {
      UpdateFieldwise(cfg, updates[..|updates| - 1], name);
    }
  }

  /** Keyword arguments that do not name a configuration attribute have no effect. */
  lemma {:induction false} UnknownKeysIgnored(cfg: FPGAConfig, updates: seq<(string, int)>)
    ensures ApplyUpdates(cfg, updates) == ApplyUpdates(cfg, KnownOnly(updates))
    decreases |updates|
  {
    if updates != [] {
      var init := updates[..|updates| - 1];
      var last := updates[|updates| - 1];
      UnknownKeysIgnored(cfg, init);
      if last.0 in ConfigFields {
        var k := KnownOnly(init) + [last];
        assert k[..|k| - 1] == KnownOnly(init);
      }
    }
  }

  /** With no keyword arguments naming an attribute, the configuration is unchanged. */
  lemma {:induction false} UnrelatedUpdatesChangeNothing(cfg: FPGAConfig, updates: seq<(string, int)>)
    requires forall i :: 0 <= i < |updates| ==> updates[i].0 !in ConfigFields
    ensures ApplyUpdates(cfg, updates) == cfg
    decreases |updates|
  {
    if updates != [] {
      UnrelatedUpdatesChangeNothing(cfg, updates[..|updates| - 1]);
    }
  }

  /** `update_config(active_cores=6)` changes active_cores to 6 and nothing else. */
  lemma SingleFieldUpdate(cfg: FPGAConfig)
    ensures ApplyUpdates(cfg, [("active_cores", 6)]) == cfg.(activeCores := 6)
  {
    var u := [("active_cores", 6)];
    assert u[..0] == [];
  }

  /** No range checking: any value supplied for active_cores, however far outside
      1..8, is stored as given. */
  lemma NoRangeValidation(cfg: FPGAConfig, cores: int)
    ensures ApplyUpdates(cfg, [("active_cores", cores)]).activeCores == cores
  {
    var u := [("active_cores", cores)];
    assert u[..0] == [];
  }

  // ---------------------------------------------------------------------------
  // Sample generation (read_metrics)

  /** What read_metrics takes from the outside world: the wall-clock timestamp and the
      three `random.uniform` draws. */
  datatype Draws = Draws(timestamp: real, latencyNoise: real, throughputNoise: real, jitterDraw: real)

  /** The ranges of `random.uniform(-5, 15)`, `random.uniform(-50, 50)` and
      `random.uniform(0, 5)`. */
  predicate DrawsInRange(d: Draws)
  {
    && -5.0 <= d.latencyNoise <= 15.0
    && -50.0 <= d.throughputNoise <= 50.0
    && 0.0 <= d.jitterDraw <= 5.0
  }

  /** The latency floor: fewer active cores raise it by 10 microseconds per core. */
  function BaseLatency(activeCores: int): (floor: int)
    ensures 1 <= activeCores <= 8 ==> 50 <= floor <= 120
    ensures floor >= 0 <==> activeCores <= 13
  {
    50 + (8 - activeCores) * 10
  }

  /** The sample read_metrics builds for a configuration and a set of draws. */
  function Sample(cfg: FPGAConfig, d: Draws): (m: PerformanceMetrics)
    ensures m.timestamp == d.timestamp
    ensures m.pcieStatus == Active && m.dmaStatus == Active && m.computeStatus == Active
    ensures DrawsInRange(d) ==>
      (BaseLatency(cfg.activeCores) - 5) as real <= m.latencyUs <= (BaseLatency(cfg.activeCores) + 15) as real
    ensures DrawsInRange(d) ==>
      (cfg.activeCores * 250 - 50) as real <= m.throughputMbps <= (cfg.activeCores * 250 + 50) as real
    ensures DrawsInRange(d) ==> 0.0 <= m.jitterUs <= 5.0
  {
    PerformanceMetrics(
      d.timestamp,
      BaseLatency(cfg.activeCores) as real + d.latencyNoise,
      (cfg.activeCores * 250) as real + d.throughputNoise,
      d.jitterDraw,
      Active, Active, Active)
  }

  /** With the draws held fixed, one more active core lowers the latency by exactly 10
      and raises the throughput by exactly 250. */
  lemma SampleScaling(cfg: FPGAConfig, d: Draws)
    ensures Sample(cfg.(activeCores := cfg.activeCores + 1), d).latencyUs == Sample(cfg, d).latencyUs - 10.0
    ensures Sample(cfg.(activeCores := cfg.activeCores + 1), d).throughputMbps == Sample(cfg, d).throughputMbps + 250.0
  {
  }

  /** The samples a run of read_metrics calls produces under one configuration. */
  function SamplesFor(cfg: FPGAConfig, draws: seq<Draws>): (h: seq<PerformanceMetrics>)
    ensures |h| == |draws|
    ensures forall i :: 0 <= i < |h| ==> h[i] == Sample(cfg, draws[i])
    ensures forall i :: 0 <= i < |h| ==> h[i].timestamp == draws[i].timestamp
  {
    seq(|draws|, i requires 0 <= i < |draws| => Sample(cfg, draws[i]))
  }

  /** A sample that read_metrics can produce: all three components report ACTIVE and the
      jitter lies in [0, 5]. */
  predicate WellFormed(m: PerformanceMetrics)
  {
    && m.pcieStatus == Active && m.dmaStatus == Active && m.computeStatus == Active
    && 0.0 <= m.jitterUs <= 5.0
  }

  // ---------------------------------------------------------------------------
  // Rolling statistics (get_statistics)

  /** The dictionary get_statistics returns for a non-empty history. */
  datatype Statistics = Statistics(
    avgLatencyUs: real,
    maxLatencyUs: real,
    minLatencyUs: real,
    p99LatencyUs: real,
    maxJitterUs: real,
    speedupVsCpu: real)

  /** The CPU baseline latency, in microseconds, that the speedup is measured against. */
  const CpuBaselineUs: real := 150.0

  /** How many times faster than the 150 microsecond CPU baseline a mean latency is. */
  function Speedup(avgLatencyUs: real): (r: real)
    requires avgLatencyUs != 0.0
    ensures r * avgLatencyUs == CpuBaselineUs
    ensures avgLatencyUs > 0.0 ==> r > 0.0
  {
    CpuBaselineUs / avgLatencyUs
  }

  /** At most this many of the most recent samples enter the statistics. */
  const StatisticsWindow: nat := 100

  /** `history[-100:]`: the most recent samples, at most 100 of them. */
  function Recent(history: seq<PerformanceMetrics>): (w: seq<PerformanceMetrics>)
    ensures |w| == if |history| <= StatisticsWindow then |history| else StatisticsWindow
    ensures w == history[|history| - |w|..]
  {
    if |history| <= StatisticsWindow then history else history[|history| - StatisticsWindow..]
  }

  function Latencies(samples: seq<PerformanceMetrics>): (r: seq<real>)
    ensures |r| == |samples|
    ensures forall i :: 0 <= i < |r| ==> r[i] == samples[i].latencyUs
  {
    seq(|samples|, i requires 0 <= i < |samples| => samples[i].latencyUs)
  }

  function Jitters(samples: seq<PerformanceMetrics>): (r: seq<real>)
    ensures |r| == |samples|
    ensures forall i :: 0 <= i < |r| ==> r[i] == samples[i].jitterUs
  {
    seq(|samples|, i requires 0 <= i < |samples| => samples[i].jitterUs)
  }

  function Throughputs(samples: seq<PerformanceMetrics>): (r: seq<real>)
    ensures |r| == |samples|
    ensures forall i :: 0 <= i < |r| ==> r[i] == samples[i].throughputMbps
  {
    seq(|samples|, i requires 0 <= i < |samples| => samples[i].throughputMbps)
  }

  /** get_statistics over a history: no statistics for an empty history, a division by
      zero when the mean latency of the window is 0, and otherwise the statistics of the
      most recent (at most 100) samples. */
  function ComputeStatistics(history: seq<PerformanceMetrics>): (r: Result<Option<Statistics>>)
    ensures r == Ok(None) <==> history == []
    ensures r.Err? <==> history != [] && Mean(Latencies(Recent(history))) == 0.0
    ensures r.Err? ==> r.error == ZeroDivisionError
    ensures r.Ok? && r.value.Some? ==>
      var s, w := r.value.value, Latencies(Recent(history));
      && |w| > 0
      && s.avgLatencyUs == Mean(w)
      && s.minLatencyUs <= s.avgLatencyUs <= s.maxLatencyUs
      && s.minLatencyUs <= s.p99LatencyUs <= s.maxLatencyUs
      && s.p99LatencyUs == s.maxLatencyUs
      && s.minLatencyUs in w && s.maxLatencyUs in w
      && (forall i :: 0 <= i < |w| ==> s.minLatencyUs <= w[i] <= s.maxLatencyUs)
      && s.avgLatencyUs != 0.0 && s.speedupVsCpu == Speedup(s.avgLatencyUs)
    ensures r.Ok? && r.value.Some? ==>
      var s, j := r.value.value, Jitters(Recent(history));
      s.maxJitterUs in j && forall i :: 0 <= i < |j| ==> j[i] <= s.maxJitterUs
  {
    if history == [] then Ok(None)
    else
      var w := Recent(history);
      var latencies, jitters := Latencies(w), Jitters(w);
      assert 0 < |latencies| <= StatisticsWindow && |jitters| == |latencies|;
      var avg := Mean(latencies);
      if avg == 0.0 then Err(ZeroDivisionError)
      else
        Percentile99OfSmallWindow(latencies);
        var p99 := Percentile(latencies, 99);
        assert p99 == Max(latencies);
        Ok(Some(Statistics(avg, Max(latencies), Min(latencies), p99, Max(jitters), Speedup(avg))))
  }

  /** The statistics depend only on the most recent 100 samples: anything older is
      ignored. */
  lemma StatisticsSeeOnlyRecent(older: seq<PerformanceMetrics>, recent: seq<PerformanceMetrics>)
    requires |recent| >= StatisticsWindow
    ensures ComputeStatistics(older + recent) == ComputeStatistics(recent)
  {
    var h := older + recent;
    assert h[|h| - StatisticsWindow..] == recent[|recent| - StatisticsWindow..];
    assert Recent(h) == Recent(recent);
  }

  /** Taking the window of a window changes nothing, so the statistics of a history and of
      its most recent 100 samples coincide. */
  lemma StatisticsOfRecent(history: seq<PerformanceMetrics>)
    ensures ComputeStatistics(history) == ComputeStatistics(Recent(history))
  {
  }

  /** When every latency in the history is positive, the statistics exist (no division by
      zero). */
  lemma {:induction false} StatisticsDefinedForPositiveLatencies(history: seq<PerformanceMetrics>)
    requires history != []
    requires forall i :: 0 <= i < |history| ==> history[i].latencyUs > 0.0
    ensures ComputeStatistics(history).Ok? && ComputeStatistics(history).value.Some?
  {
    var w := Latencies(Recent(history));
    assert forall i :: 0 <= i < |w| ==> w[i] > 0.0;
    assert Min(w) > 0.0;
  }

  /** Samples read under at most 12 active cores have latency at least 5, so their
      statistics never divide by zero; the mean latency then stays within the range of a
      single sample. */
  lemma StatisticsDefinedUpToTwelveCores(cfg: FPGAConfig, draws: seq<Draws>)
    requires draws != []
    requires forall i :: 0 <= i < |draws| ==> DrawsInRange(draws[i])
    requires cfg.activeCores <= 12
    ensures ComputeStatistics(SamplesFor(cfg, draws)).Ok?
    ensures ComputeStatistics(SamplesFor(cfg, draws)).value.Some?
    ensures var s := ComputeStatistics(SamplesFor(cfg, draws)).value.value;
      (BaseLatency(cfg.activeCores) - 5) as real <= s.avgLatencyUs <= (BaseLatency(cfg.activeCores) + 15) as real
  {
    var h := SamplesFor(cfg, draws);
    var lo, hi := (BaseLatency(cfg.activeCores) - 5) as real, (BaseLatency(cfg.activeCores) + 15) as real;
    forall i | 0 <= i < |h| ensures lo <= h[i].latencyUs <= hi {
      assert h[i] == Sample(cfg, draws[i]);
    }
    StatisticsDefinedForPositiveLatencies(h);
    var w := Latencies(Recent(h));
    MeanBounds(w, lo, hi);
  }

  /** Because active_cores is not validated, a division by zero is reachable: with 13
      cores the latency floor is 0, and a zero noise draw gives a mean latency of 0. */
  lemma ZeroDivisionReachable()
    ensures ComputeStatistics([Sample(DefaultConfig.(activeCores := 13), Draws(0.0, 0.0, 0.0, 0.0))]) ==
            Err(ZeroDivisionError)
  {
    var h := [Sample(DefaultConfig.(activeCores := 13), Draws(0.0, 0.0, 0.0, 0.0))];
    assert Latencies(Recent(h)) == [0.0];
  }

  /** With the default configuration and every draw at 0, the first sample has latency 90
      and throughput 1000, and the statistics report a mean of 90 and a speedup of 150/90. */
  lemma DefaultFirstSample()
    ensures Sample(DefaultConfig, Draws(0.0, 0.0, 0.0, 0.0)).latencyUs == 90.0
    ensures Sample(DefaultConfig, Draws(0.0, 0.0, 0.0, 0.0)).throughputMbps == 1000.0
    ensures ComputeStatistics([Sample(DefaultConfig, Draws(0.0, 0.0, 0.0, 0.0))]) ==
            Ok(Some(Statistics(90.0, 90.0, 90.0, 90.0, 0.0, 150.0 / 90.0)))
  {
    var h := [Sample(DefaultConfig, Draws(0.0, 0.0, 0.0, 0.0))];
    assert Latencies(Recent(h)) == [90.0];
    assert Jitters(Recent(h)) == [0.0];
    SortAscendingOfSorted([90.0]);
  }

  // ---------------------------------------------------------------------------
  // The controller

  const NotConnectedMessage := "FPGA not connected"

  class FPGAController {
    var config: FPGAConfig
    var isConnected: bool
    var metricsHistory: seq<PerformanceMetrics>

    /** Every recorded sample is one read_metrics can produce. */
    ghost predicate Valid()
      reads this
    {
      forall i :: 0 <= i < |metricsHistory| ==> WellFormed(metricsHistory[i])
    }

    constructor ()
      ensures Valid()
      ensures config == DefaultConfig && !isConnected && metricsHistory == []
    {
      config := DefaultConfig;
      isConnected := false;
      metricsHistory := [];
    }

    method Connect() returns (ok: bool)
      requires Valid()
      modifies this
      ensures Valid()
      ensures ok && isConnected
      ensures config == old(config) && metricsHistory == old(metricsHistory)
    {
      isConnected := true;
      ok := true;
    }

    method Disconnect()
      requires Valid()
      modifies this
      ensures Valid()
      ensures !isConnected
      ensures config == old(config) && metricsHistory == old(metricsHistory)
    {
      isConnected := false;
    }

    /** Applies the keyword arguments in order. It always succeeds and checks no ranges. */
    method UpdateConfig(updates: seq<(string, int)>) returns (ok: bool)
      requires Valid()
      modifies this
      ensures Valid()
      ensures ok
      ensures config == ApplyUpdates(old(config), updates)
      ensures isConnected == old(isConnected) && metricsHistory == old(metricsHistory)
    {
      var i := 0;
      while i < |updates|
        invariant 0 <= i <= |updates|
        invariant config == ApplyUpdates(old(config), updates[..i])
        invariant isConnected == old(isConnected) && metricsHistory == old(metricsHistory)
      {
        var (key, value) := updates[i];
        if key in ConfigFields {
          config := WithField(config, key, value);
        }
        assert updates[..i + 1][..i] == updates[..i];
        i := i + 1;
      }
      assert updates[..i] == updates;
      ok := true;
    }

    /** Builds one sample from the current configuration and appends it to the history. */
    method ReadMetrics(d: Draws) returns (m: PerformanceMetrics)
      requires Valid()
      requires DrawsInRange(d)
      modifies this
      ensures Valid()
      ensures m == Sample(config, d)
      ensures metricsHistory == old(metricsHistory) + [m]
      ensures config == old(config) && isConnected == old(isConnected)
    {
      m := Sample(config, d);
      metricsHistory := metricsHistory + [m];
    }

    /** Returns the payload unchanged when connected, and raises otherwise. */
    method StreamData(data: seq<byte>) returns (r: Result<seq<byte>>)
      ensures !isConnected ==> r == Err(RuntimeError(NotConnectedMessage))
      ensures isConnected ==> r == Ok(data)
    {
      if !isConnected {
        return Err(RuntimeError(NotConnectedMessage));
      }
      r := Ok(data);
    }

    /** The statistics of the current history; for well-formed samples the maximum
        jitter lies in [0, 5]. */
    function GetStatistics(): (r: Result<Option<Statistics>>)
      requires Valid()
      reads this
      ensures r == ComputeStatistics(metricsHistory)
      ensures r == Ok(None) <==> metricsHistory == []
      ensures r.Ok? && r.value.Some? ==> 0.0 <= r.value.value.maxJitterUs <= 5.0
    {
      var r := ComputeStatistics(metricsHistory);
      var j := Jitters(Recent(metricsHistory));
      assert forall i :: 0 <= i < |j| ==> 0.0 <= j[i] <= 5.0 by {
        forall i | 0 <= i < |j| ensures 0.0 <= j[i] <= 5.0 {
          var w := Recent(metricsHistory);
          assert j[i] == w[i].jitterUs == metricsHistory[|metricsHistory| - |w| + i].jitterUs;
        }
      }
      r
    }
  }
}
